# ComfortCheck — a Dafny model of the dashboard's core

ComfortCheck is a classroom-comfort dashboard. Its core is made of three parts:

- A simulated data service. It has a fixed table of eight rooms. A three-band classifier turns each room's temperature into a comfort level. The service returns an initial snapshot and a randomly perturbed "live" snapshot.
- A temperature formatter, for Celsius and Fahrenheit.
- The stateful parts of the React front end:
  - mock authentication backed by `localStorage`, and the auth context around it;
  - the notification centre with its unread counter;
  - the login card, the sign-in and sign-up pages, and the settings page, with their validation rules;
  - the role-filtered navigation bar;
  - the device status panel, the network scan modal, and the room-details modal;
  - the campus overview page, with its periodic refresh and its comfort counts.

This project restates each of these in Dafny and proves what the code promises. There is one module per source file:

- pure code becomes datatypes, functions and lemmas;
- components that update state become classes whose methods carry `modifies` clauses;
- loops stay loops, with their invariants.

Some choices in the model:

- **Temperatures.** In the data service they are integer tenths of a degree Celsius: every base value has one decimal, and the live value is rounded to one decimal. So the band limits 25 °C and 29 °C become 250 and 290. Temperatures in the room history are `real`.
- **Random draws.** Every `Math.random()` draw becomes a parameter. Its subset type is the range the expression can produce.
- **Storage.** `localStorage` is the `Storage.Store` class, a map from keys to stored values.
- **Timers.** Every timer callback is its own method. A counter or flag records whether a callback is pending, so a callback that fires without one being pending changes nothing.
- **Form values.** JavaScript's dynamic values in the settings form are the `Value` datatype: `Str | Flag | Num | NaN`.

Two behaviours of the code are worth stating outright:

- The overview refreshes on a fixed 10 000 ms interval, set once on mount (src/pages/CampusOverview.jsx:15-21). It has no comfort filter and no pause, and it reads no stored preferences.
- A device filter button sets the filter to its status (src/components/dashboard/DeviceStatus.jsx:42). Pressing the selected button again keeps it selected; it does not toggle back to "all".

The two sign-up forms differ, and each is modelled as written. The sign-up page reports an empty confirmation as a mismatch, while the login card's sign-up tab asks for the confirmation.

## Model

| member | source | states |
|---|---|---|
| Temperature.ConvertTemperature | src/utils/temperature.js:1-6 | For "fahrenheit" the result converts back to the Celsius input through (F − 32)·5/9. Any other unit string returns the input unchanged. |
| Temperature.ConvertTemperatureExamples | src/utils/temperature.js:1-6 | 0 °C is 32 °F, 100 °C is 212 °F, −40 is the same on both scales, and "celsius" keeps 23.5. |
| Temperature.ConvertTemperatureIncreasing | src/utils/temperature.js:1-6 | For every unit, a warmer Celsius reading converts to a strictly larger number. |
| Temperature.ToFixed | src/utils/temperature.js:11 | `toFixed`: a leading '-' appears exactly for negative values. The rest starts with a digit. With no decimals it is all digits; otherwise it is digits, the point, and exactly `decimals` digits. |
| Temperature.RoundedMagnitudeClose | src/utils/temperature.js:11 | The rounded magnitude is within half a unit in the last printed place of \|x\|. |
| Temperature.ToFixedReadsBack | src/utils/temperature.js:11 | Reading the printed numeral back yields the rounded value. This is the round trip of `toFixed`. |
| Temperature.FormatTemperature | src/utils/temperature.js:8-11 | The text ends in "°F" exactly when the unit is "fahrenheit", and in "°C" otherwise. The text before the symbol reads back as the converted temperature rounded to `decimals` places. |
| Temperature.FormatTemperatureClose | src/utils/temperature.js:8-11 | The number shown is within half a unit in the last place of the converted temperature. |
| Temperature.ToFixedTenths | src/utils/temperature.js:11 | For a value that is exactly n tenths (n ≥ 10), one-decimal `toFixed` is n's digits with a point before the last one. |
| Temperature.FormatTenths | src/utils/temperature.js:8-11 | For a converted value that is exactly n tenths, the default format is n's digits with a point before the last one, followed by the unit's symbol. |
| Temperature.FormatFreezingFahrenheit | src/utils/temperature.js:8-11 | 0 °C shown in Fahrenheit is "32.0°F". |
| Temperature.FormatBoilingFahrenheit | src/utils/temperature.js:8-11 | 100 °C shown in Fahrenheit is "212.0°F". |
| Temperature.FormatCelsiusReading | src/utils/temperature.js:8-11 | Room 101's 23.5 °C shown in Celsius is "23.5°C". |
| MockData.ComfortLevel | src/services/mockData.js:14-18 | Comfortable exactly up to 25 °C, warm exactly in (25, 29], and hot exactly above 29 °C. |
| MockData.ComfortLevelMonotone | src/services/mockData.js:14-18 | A warmer reading is never in a cooler band. |
| MockData.ComfortLevelBoundaries | src/services/mockData.js:14-18 | 25.0 is comfortable, 25.1 warm, 29.0 warm, 29.1 hot. |
| MockData.BaseHumidityInRange | src/services/mockData.js:2-11 | Every base humidity lies in [30, 90]. |
| MockData.FetchClassrooms | src/services/mockData.js:21-26 | One record per base room, in base order. Id, name, temperature and humidity are unchanged, and each band is the band of the room's own temperature. |
| MockData.FetchClassroomsExamples | src/services/mockData.js:2-26 | Room 101 starts comfortable and Room 103 starts hot. |
| MockData.ClampHumidity | src/services/mockData.js:33-36 | The result lies in [30, 90]. An in-range value is kept, one below is raised to 30, and one above is lowered to 90. |
| MockData.ClampHumidityCloser | src/services/mockData.js:33-36 | Clamping never moves a value further from a humidity inside the range. |
| MockData.GenerateLiveData | src/services/mockData.js:29-44 | One record per base room, in base order, with id and name kept. The temperature moves by at most 1.5 °C. The humidity stays in [30, 90] and moves by at most 5. Every band matches its new temperature. |
| MockData.GenerateLiveDataExact | src/services/mockData.js:29-44 | Each live temperature is the base temperature plus its own draw. Each live humidity is the clamped sum of base and draw. Nothing else enters. |
| CampusOverview.InBand | src/pages/CampusOverview.jsx:24-30 | A room is counted in a band exactly when it is in the list with that comfort level. |
| CampusOverview.InBandAppend | src/pages/CampusOverview.jsx:24-30 | One more room adds one to its own band and nothing to the others. |
| CampusOverview.BandsPartition | src/pages/CampusOverview.jsx:24-30 | The three band sizes add up to the number of rooms. |
| CampusOverview.CountByComfort | src/pages/CampusOverview.jsx:24-30 | The `reduce` leaves each count equal to the size of its band, and the three counts sum to the list length. |
| CampusOverview.Overview.constructor | src/pages/CampusOverview.jsx:6-7 | The page starts with an empty list, stamped with the creation time, and no interval. |
| CampusOverview.Overview.Mount | src/pages/CampusOverview.jsx:10-21 | Mounting loads the initial snapshot and registers the interval. Every shown room stays consistent with its band. |
| CampusOverview.Overview.Tick | src/pages/CampusOverview.jsx:16-19 | While the interval is registered, a tick replaces the whole list with a fresh live snapshot and records the time. After cleanup, a tick changes nothing. |
| CampusOverview.Overview.Unmount | src/pages/CampusOverview.jsx:20 | The cleanup clears the interval and keeps the list and the time. |
| CampusOverview.Overview.Counts | src/pages/CampusOverview.jsx:24-30 | The summary numbers are the band sizes of the current list. |
| Storage.Store.SetItem | src/services/mockAuth.js:42 | Writing a key replaces that key's value and leaves the other keys alone. |
| Storage.Store.RemoveItem | src/services/mockAuth.js:50 | Removing a key deletes only that key. |
| MockAuth.WithoutPassword | src/services/mockAuth.js:40 | The stored account keeps every field of the user except the password. |
| MockAuth.FindUser | src/services/mockAuth.js:35-37 | `find`: the result is none exactly when no user has both the email and the password. Otherwise it is the first user that has both. |
| MockAuth.TableUsersFound | src/services/mockAuth.js:2-37 | Each of the three table users is found with their own credentials, at their own position. |
| MockAuth.CrossedCredentialsRefused | src/services/mockAuth.js:2-37 | One user's email with another user's password is refused. |
| MockAuth.MockLogin | src/services/mockAuth.js:32-47 | Login succeeds exactly for known credentials. On success it returns the matching user without the password, writes that user under the session key, and `getCurrentUser` then returns it. On failure it raises "Invalid email or password" and leaves storage untouched. |
| MockAuth.MockLogout | src/services/mockAuth.js:49-51 | Only the session key is removed, and `getCurrentUser` returns no user afterwards. |
| MockAuth.GetCurrentUser | src/services/mockAuth.js:53-56 | A user is returned exactly when a user record is stored under the session key, and it is that record. |
| MockAuth.HasRole | src/services/mockAuth.js:58-61 | True exactly when a current user exists and has that role. |
| AuthContext.AuthProvider.constructor | src/contexts/AuthContext.jsx:15-17 | The provider starts with no user, loading, and no error. |
| AuthContext.AuthProvider.Mount | src/contexts/AuthContext.jsx:20-26 | A saved session user becomes the user; without one the user is kept. Loading ends either way. |
| AuthContext.AuthProvider.Login | src/contexts/AuthContext.jsx:28-41 | Success holds exactly for known credentials, and loading always ends. On success the user is the stored account and the error is cleared. On failure the user is kept, the error is the thrown message, and the result carries it. The result never carries a user. |
| AuthContext.AuthProvider.Logout | src/contexts/AuthContext.jsx:43-46 | Clears the session key and the user. Leaves loading and the error alone. |
| AuthContext.AuthProvider.IsAuthenticated | src/contexts/AuthContext.jsx:54 | Authenticated exactly when there is a user. |
| AuthContext.AuthProvider.Role | src/contexts/AuthContext.jsx:55 | The user's role when there is a user with a non-empty role; null otherwise. |
| NotificationContext.NewNotification | src/contexts/NotificationContext.jsx:17-23 | The id and timestamp default to the current time and `read` defaults to false. Each can be overridden by the caller's fields. |
| NotificationContext.MarkRead | src/contexts/NotificationContext.jsx:28-33 | Entries carrying the id become read. Every other entry, the length and the order stay the same. |
| NotificationContext.MarkAll | src/contexts/NotificationContext.jsx:37-40 | Every entry becomes read, with the length and order kept. |
| NotificationContext.Without | src/contexts/NotificationContext.jsx:50 | An entry survives exactly when it is in the list and does not carry the id. |
| NotificationContext.FindById | src/contexts/NotificationContext.jsx:46 | The first entry with the id, or none when no entry carries it. |
| NotificationContext.MarkAllLeavesNoneUnread | src/contexts/NotificationContext.jsx:37-42 | After marking all read, no entry is unread. |
| NotificationContext.MarkReadNeverAddsUnread | src/contexts/NotificationContext.jsx:28-33 | Marking never increases the number of unread entries, and every entry with the id is read afterwards. |
| NotificationContext.MarkReadAbsentId | src/contexts/NotificationContext.jsx:28-33 | Marking an id that no entry carries leaves the list unchanged. |
| NotificationContext.WithoutNeverAddsUnread | src/contexts/NotificationContext.jsx:44-52 | Removing never increases the number of unread entries. |
| NotificationContext.WithoutKeepsOrder | src/contexts/NotificationContext.jsx:50 | Removal distributes over concatenation, so the survivors keep their order. |
| NotificationContext.NotificationCenter.constructor | src/contexts/NotificationContext.jsx:14-15 | The centre starts with no entries and a zero counter. |
| NotificationContext.NotificationCenter.AddNotification | src/contexts/NotificationContext.jsx:17-26 | The new entry goes first and the counter goes up by one, even when the entry is already read. |
| NotificationContext.NotificationCenter.MarkAsRead | src/contexts/NotificationContext.jsx:28-35 | The entries are marked as `MarkRead` states. The counter goes down by one, floored at 0, whether or not anything was unread. |
| NotificationContext.NotificationCenter.MarkAllAsRead | src/contexts/NotificationContext.jsx:37-42 | Every entry is read and the counter is 0. |
| NotificationContext.NotificationCenter.RemoveNotification | src/contexts/NotificationContext.jsx:44-52 | Every entry with the id goes. The counter drops by one, floored, only when the first such entry was unread. |
| NotificationContext.CounterDrift | src/contexts/NotificationContext.jsx:17-35 | Adding one entry and then marking an absent id leaves the counter at 0 while one entry is still unread. The counter is not tied to the list. |
| FieldRules.MatchesEmailPattern | src/components/auth/LoginForm.jsx:43 | `/\S+@\S+\.\S+/` matches somewhere in the string: a non-blank character, '@', a non-blank run, '.', and a non-blank character. |
| FieldRules.EmailPatternShape | src/components/auth/LoginForm.jsx:43 | A matching address has at least five characters and is not blank. |
| FieldRules.EmailPatternAccepts | src/components/auth/LoginForm.jsx:43 | The table addresses, "a@b.c", and an address inside a longer text all match, since the pattern is unanchored. |
| FieldRules.EmailPatternRejects | src/components/auth/LoginForm.jsx:43 | No '@', nothing before '@', nothing between '@' and '.', and a space before '@' are each refused. |
| FieldRules.EmailError | src/components/auth/LoginForm.jsx:41-45 | "Email is required" exactly for the empty string, "Email is invalid" exactly for a non-empty non-match, and no error exactly for a match. |
| FieldRules.PasswordError | src/components/auth/LoginForm.jsx:47-51 | "Password is required" exactly for the empty string, the length message exactly for 1–5 characters, and no error from 6 characters on. |
| FieldRules.NameError | src/components/auth/LoginForm.jsx:60-62 | "Name is required" exactly for an empty name. |
| FieldRules.WithError | src/components/auth/LoginForm.jsx:38-54 | Adds a field's error when there is one and leaves the other fields alone. |
| FieldRules.LoginErrors | src/components/auth/LoginForm.jsx:38-54 | The errors name only email and password. Each field has an entry exactly when its rule fails, holding that rule's message. |
| FieldRules.LoginErrorsEmptyIff | src/components/auth/LoginForm.jsx:38-54 | There are no errors exactly when the email matches and the password has at least 6 characters. |
| FieldRules.ClearError | src/components/auth/LoginForm.jsx:32-34 | Afterwards the field shows no error. A shown error becomes "", and without one the map is unchanged. |
| LoginForm.ConfirmError | src/components/auth/LoginForm.jsx:76-80 | "Please confirm your password" exactly for an empty confirmation, the mismatch message exactly for a different non-empty one, and no error exactly when it equals the password. |
| LoginForm.SignupErrors | src/components/auth/LoginForm.jsx:57-83 | Each of the four fields has an entry exactly when its rule fails, holding that rule's message. |
| LoginForm.SignupErrorsEmptyIff | src/components/auth/LoginForm.jsx:57-83 | There are no errors exactly when the name is non-empty, the email matches, the password has at least 6 characters, and the confirmation equals it. |
| LoginForm.WelcomeMessage | src/components/auth/LoginForm.jsx:103 | Greets the result's user by name and falls back to "User" when the result has no user. |
| LoginForm.LoginCard.constructor | src/components/auth/LoginForm.jsx:12-21 | Four empty fields, no errors, and the login tab selected. |
| LoginForm.LoginCard.HandleChange | src/components/auth/LoginForm.jsx:25-35 | Only the named field changes, and its shown error is cleared. |
| LoginForm.LoginCard.SelectTab | src/components/auth/LoginForm.jsx:172 | Switching tabs keeps the fields and the errors. |
| LoginForm.LoginCard.HandleLogin | src/components/auth/LoginForm.jsx:86-113 | Failing rules set exactly those errors, and nothing reaches the auth context or storage. Known credentials sign the user in and greet "User", because the login result has no user. Unknown credentials set the form error, notify "Login failed: …", and leave the signed-in user and storage unchanged. |
| LoginForm.LoginCard.HandleSignup | src/components/auth/LoginForm.jsx:116-139 | Failing rules set exactly those errors and change nothing else. Passing rules switch to the login tab, keep only the email, and notify that the account was created. |
| LoginPage.SignInPage.constructor | src/pages/Login.jsx:6-10 | The page starts with empty fields, no errors, and not loading. |
| LoginPage.SignInPage.ValidateForm | src/pages/Login.jsx:13-30 | The errors are exactly the login rules' errors. The form is valid exactly when the email matches and the password has at least 6 characters. |
| LoginPage.SignInPage.HandleInputChange | src/pages/Login.jsx:32-44 | Only the named field (email or password) changes, and its shown error is cleared. |
| LoginPage.SignInPage.HandleSubmit | src/pages/Login.jsx:46-60 | An invalid form only shows its errors. A valid one starts loading and schedules the timer. |
| LoginPage.SignInPage.FinishSubmit | src/pages/Login.jsx:53-59 | A pending timer writes the dummy token under "authToken" and ends loading. Without a pending timer nothing changes. |
| LoginPage.InvalidSubmitWritesNoToken | src/pages/Login.jsx:46-60 | A submit with a too-short password leaves storage untouched, even when a timer callback fires. |
| SignUpPage.MismatchError | src/pages/SignUp.jsx:36-38 | "Passwords do not match" exactly when the confirmation differs from the password. |
| SignUpPage.SignUpErrors | src/pages/SignUp.jsx:17-42 | Each of the four fields has an entry exactly when its rule fails, holding that rule's message. |
| SignUpPage.SignUpErrorsEmptyIff | src/pages/SignUp.jsx:17-42 | There are no errors exactly when the name is non-empty, the email matches, the password has at least 6 characters, and the confirmation equals it. |
| SignUpPage.EmptyConfirmationIsMismatch | src/pages/SignUp.jsx:36-38 | An empty confirmation is reported as a mismatch, unless the password is empty too. |
| SignUpPage.SignUpForm.constructor | src/pages/SignUp.jsx:6-14 | The form starts with four empty fields, no errors, and not loading. |
| SignUpPage.SignUpForm.ValidateForm | src/pages/SignUp.jsx:17-42 | The errors are exactly the sign-up rules' errors, and the form is valid exactly when all four rules pass. |
| SignUpPage.SignUpForm.HandleInputChange | src/pages/SignUp.jsx:44-57 | Only the named field changes, and its shown error is cleared. |
| SignUpPage.SignUpForm.HandleSubmit | src/pages/SignUp.jsx:59-64 | An invalid form only shows its errors. A valid one starts loading and schedules the timer. |
| SignUpPage.SignUpForm.FinishSubmit | src/pages/SignUp.jsx:65-79 | A pending timer ends loading and keeps the fields and errors. |
| Settings.IntToString | src/pages/Settings.jsx:99 | JavaScript's number-to-string for integers: the decimal numeral, with '-' before negatives. |
| Settings.TrimStart | src/pages/Settings.jsx:99 | Removes exactly the leading whitespace that `parseInt` skips. |
| Settings.LeadingDigits | src/pages/Settings.jsx:99 | The longest prefix of digits in the radix. |
| Settings.ParseUnsigned | src/pages/Settings.jsx:99 | There is no number exactly when no digit follows the optional `0x` prefix. |
| Settings.ParseIntString | src/pages/Settings.jsx:99 | `parseInt` of a string is always a number or NaN. |
| Settings.Signed | src/pages/Settings.jsx:99 | No digits give NaN; otherwise the number is the magnitude, negated after a minus sign. |
| Settings.ParseIntUnsignedAt | src/pages/Settings.jsx:99 | After leading whitespace and without a sign, `parseInt` reads the rest as an unsigned numeral. |
| Settings.ParseUnsignedHex | src/pages/Settings.jsx:99 | "0x1e" reads as hexadecimal 30. |
| Settings.ParseInt | src/pages/Settings.jsx:99 | `parseInt` of any form value is always a number or NaN. |
| Settings.ParseUnsignedNumeral | src/pages/Settings.jsx:99 | Parsing a printed natural number gives that number back. |
| Settings.ParseIntNumeral | src/pages/Settings.jsx:99 | `parseInt` of a printed natural number gives that number back. |
| Settings.ParseIntNumber | src/pages/Settings.jsx:99 | An interval that is already a number is saved unchanged. |
| Settings.ParseIntNaN | src/pages/Settings.jsx:99 | NaN stays NaN. |
| Settings.ParseIntIdempotent | src/pages/Settings.jsx:99 | Saving twice parses to the same value as saving once. |
| Settings.ParseUnsignedStopsAtUnit | src/pages/Settings.jsx:99 | Parsing stops at the first non-digit: "30s" gives 30. |
| Settings.ParseIntLenient | src/pages/Settings.jsx:99 | Leading spaces are skipped: "  30s" gives 30. |
| Settings.ParseIntHex | src/pages/Settings.jsx:99 | A `0x` prefix reads hexadecimal: "0x1e" gives 30. |
| Settings.ParseIntMinus | src/pages/Settings.jsx:99 | A minus sign is read: "-5" gives −5. |
| Settings.ParseIntNoDigits | src/pages/Settings.jsx:99 | A value with no leading digit gives NaN. |
| Settings.ParseIntBoolean | src/pages/Settings.jsx:99 | A checkbox's `true` stringifies to "true" and gives NaN. |
| Settings.CheckMessage | src/pages/Settings.jsx:61-87 | Only a failed check raises a notification, and its text is one of the three error messages. |
| Settings.SaveNotice | src/pages/Settings.jsx:61-87 | The notification raised on save, in terms of the form: "Name is required" exactly for a blank name, "Email is required" exactly for a blank email after a filled name, "Email is invalid" exactly for a filled email the pattern refuses, and none exactly when the settings are accepted. |
| Settings.ValidateSettings | src/pages/Settings.jsx:61-87 | Only the first failing check is reported: a blank name, then a blank email, then an email the pattern refuses. The settings are accepted exactly when the name is not blank and the email matches. |
| Settings.FormFor | src/pages/Settings.jsx:22-29 | The form holds the user's name and email, or empty strings without a user, plus the four preference values. |
| Settings.SavedPreferences | src/pages/Settings.jsx:96-101 | The saved interval is always a number or NaN. |
| Settings.SavedIgnoresProfile | src/pages/Settings.jsx:96-101 | Name and email never reach the saved preferences. |
| Settings.SaveDefaultsUnchanged | src/pages/Settings.jsx:14-29 | Saving an untouched form over the defaults stores the defaults. |
| Settings.SaveIsStable | src/pages/Settings.jsx:96-127 | Re-opening saved preferences and saving again stores the same preferences. |
| Settings.SettingsPage.constructor | src/pages/Settings.jsx:14-32 | The preferences are the stored ones or the defaults, and the form is built from the user and those preferences. The page is not editing and not saving. |
| Settings.SettingsPage.UserChanged | src/pages/Settings.jsx:35-41 | Only name and email are refreshed from the user. |
| Settings.SettingsPage.StartEditing | src/pages/Settings.jsx:141 | Turns editing on and changes nothing else. |
| Settings.SettingsPage.HandleChange | src/pages/Settings.jsx:44-50 | The named field takes the checkbox state for a checkbox and the text value otherwise. |
| Settings.SettingsPage.HandleRadioChange | src/pages/Settings.jsx:53-58 | The named field takes the chosen value. |
| Settings.SettingsPage.HandleSave | src/pages/Settings.jsx:61-113 | The check is that of the form's name and email, and the returned notification is that check's error message, or none when it passes. A failed check leaves the preferences, the saving flag and the pending timers unchanged. An accepted one stores the form's preferences, with the interval parsed, starts saving and schedules one completion. The form and the editing flag never change. |
| Settings.SettingsPage.FinishSave | src/pages/Settings.jsx:104-112 | A pending timer raises "Settings saved successfully!" and ends both editing and saving. Without a pending timer nothing is raised and nothing changes. The form and the preferences never change. |
| Settings.SettingsPage.HandleCancel | src/pages/Settings.jsx:116-127 | The form is rebuilt from the user and the stored preferences, and editing ends. |
| Navigation.VisibleItems | src/components/layout/Navigation.jsx:12-23 | Nothing is rendered without a user. Otherwise an item is shown exactly when it lists the user's role. |
| Navigation.TeacherItems | src/components/layout/Navigation.jsx:14-23 | A teacher sees Dashboard, Room Details and Settings, in that order, and never Device Health. |
| Navigation.ManagersSeeAll | src/components/layout/Navigation.jsx:14-23 | Admins and facility managers see all four items in order. |
| Navigation.UnknownRoleSeesNothing | src/components/layout/Navigation.jsx:14-23 | A role that no item lists sees an empty bar. |
| Navigation.BadgeOnlyOnDashboard | src/components/layout/Navigation.jsx:44 | A shown item carries the unread badge exactly when it is the Dashboard and the count is positive. |
| DeviceStatus.FilteredDevices | src/components/dashboard/DeviceStatus.jsx:23-26 | "all" shows every device in order. Any other filter shows exactly the devices with that status. |
| DeviceStatus.StatusCount | src/components/dashboard/DeviceStatus.jsx:29-33 | A status count is 0 exactly when no device has that status. |
| DeviceStatus.FilterMatchesCount | src/components/dashboard/DeviceStatus.jsx:23-33 | The list under a status filter has as many devices as that status's count on the button. |
| DeviceStatus.MockStatusCount | src/components/dashboard/DeviceStatus.jsx:11-18 | Among the mock devices, 4 are online, 1 is offline, 1 is warning, and any other status has none. |
| DeviceStatus.MockCounts | src/components/dashboard/DeviceStatus.jsx:11-33 | The mock devices give counts of 4 online, 1 offline and 1 warning. |
| DeviceStatus.MockEmptyState | src/components/dashboard/DeviceStatus.jsx:95 | An unknown filter shows the empty state, and "all" does not. |
| DeviceStatus.StatusBadge | src/components/dashboard/DeviceStatus.jsx:66-69 | Online shows "success", offline "danger", and any other status "warning". |
| DeviceStatus.MockBatteryShown | src/components/dashboard/DeviceStatus.jsx:11-74 | Among the mock devices, only the third (offline, battery 0) hides its battery bar. |
| DeviceStatus.BatteryColor | src/components/dashboard/DeviceStatus.jsx:80-82 | The bar is green above 50, yellow in (20, 50], and red at 20 or below. |
| DeviceStatus.DevicePanel.constructor | src/components/dashboard/DeviceStatus.jsx:6-7 | The panel starts with no devices and the "all" filter. |
| DeviceStatus.DevicePanel.Load | src/components/dashboard/DeviceStatus.jsx:10-20 | The mount effect loads the mock devices and keeps the filter. |
| DeviceStatus.DevicePanel.SelectFilter | src/components/dashboard/DeviceStatus.jsx:42 | A button sets the filter to its status, replacing it, and keeps the devices. |
| ScanModal.Step | src/components/devices/ScanModal.jsx:16-26 | Below 100 a firing adds 10. At 100 or above the scan stops, is complete with 0 devices found, and progress stays 100. |
| ScanModal.RunCounting | src/components/devices/ScanModal.jsx:13-45 | From a fresh start, the first ten firings add 10 each without completing. |
| ScanModal.RunCompletes | src/components/devices/ScanModal.jsx:13-45 | The eleventh firing completes the scan, and later firings change nothing. |
| ScanModal.TickKeepsReachable | src/components/devices/ScanModal.jsx:13-31 | A firing keeps the modal among its reachable states. In those states progress is a multiple of 10 in [0, 100], the scan is never both running and complete, completion means 100, and no device is ever found. |
| ScanModal.Scanner.constructor | src/components/devices/ScanModal.jsx:7-10 | The modal starts idle, with nothing reported and not closed. |
| ScanModal.Scanner.StartScan | src/components/devices/ScanModal.jsx:40-45 | Starting resets progress, found devices and completion, and starts scanning. |
| ScanModal.Scanner.TimerFired | src/components/devices/ScanModal.jsx:13-38 | A firing applies one step. It reports the found count when it makes the scan complete, and reports nothing otherwise. |
| ScanModal.Scanner.CallbackChanged | src/components/devices/ScanModal.jsx:34-38 | A new `onScanComplete` re-runs the completion effect: while the scan is complete it reports the found count again. The scan state and the close count do not change. |
| ScanModal.FullScan | src/components/devices/ScanModal.jsx:13-45 | A full scan reports 0 devices once, on the eleventh firing. One new callback afterwards reports 0 a second time. |
| ScanModal.Scanner.ResetAndClose | src/components/devices/ScanModal.jsx:47-53 | Resets every field to idle and calls `onClose` once. |
| RoomDetailsModal.NewestFirst | src/components/dashboard/RoomDetailsModal.jsx:25-32 | Loop index i holds the point i hours before now. |
| RoomDetailsModal.Reversed | src/components/dashboard/RoomDetailsModal.jsx:33 | Position k holds the element from the mirrored position. |
| RoomDetailsModal.ReversedTwice | src/components/dashboard/RoomDetailsModal.jsx:33 | Reversing twice restores the sequence. |
| RoomDetailsModal.ReverseInPlace | src/components/dashboard/RoomDetailsModal.jsx:33 | The in-place `reverse` leaves the array mirrored. |
| RoomDetailsModal.GenerateHistory | src/components/dashboard/RoomDetailsModal.jsx:20-35 | The history is 24 hourly points, oldest first, with the last one at now. Each temperature is within [−2, 2) of the room's and each humidity is in [30, 90]. Reversing the history gives back the loop's newest-first order. |
| RoomDetailsModal.FilteredData | src/components/dashboard/RoomDetailsModal.jsx:43-47 | The shown data is a suffix of the history. Over a full history "12h" shows 12 points, "6h" shows 6, and anything else shows all 24. |
| RoomDetailsModal.NewestAlwaysShown | src/components/dashboard/RoomDetailsModal.jsx:43-47 | Whatever the range, the newest point is shown, and it is shown last. |
| RoomDetailsModal.BadgeVariant | src/components/dashboard/RoomDetailsModal.jsx:74-78 | Comfortable shows "success", warm "warning", and hot "danger". |
| RoomDetailsModal.RoomDetails.constructor | src/components/dashboard/RoomDetailsModal.jsx:11-12 | The modal starts with no history and the "24h" range. |
| RoomDetailsModal.RoomDetails.RoomChanged | src/components/dashboard/RoomDetailsModal.jsx:20-35 | A new room regenerates the history, oldest first. Without a room the history is kept. |
| RoomDetailsModal.RoomDetails.SetTimeRange | src/components/dashboard/RoomDetailsModal.jsx:89-92 | A range button sets the range and keeps the history. |
| RoomDetailsModal.RoomDetails.Shown | src/components/dashboard/RoomDetailsModal.jsx:37-47 | Nothing is rendered without a room. Otherwise the shown data is the range's suffix of the history. |

## Left out

- **Floating point.** Arithmetic is on unbounded integers and exact reals, with no IEEE 754 rounding error. Humidity draws are integers in [−5, 5]. Temperature draws are whole tenths in [−1.5, 1.5] after `toFixed(1)` and the unary `+`.
- **Temperature.ToFixed:** it does not model numbers of 10^21 or more, which JavaScript prints in exponent form. It also does not model the RangeError for more than 100 digits.
- **Settings.ParseIntString:** it does not model three things:
  - the −0 that `parseInt("-0")` returns;
  - the loss of precision beyond 2^53;
  - the exponent form that `String(n)` uses from 10^21 on.
- **Timers and effects.** Each timer or effect is an explicit method that the caller invokes: `Tick`, `FinishSubmit`, `FinishSave`, `TimerFired`, and the `Mount` methods. React's scheduling, batching and re-rendering are not modelled.
- **The notification centre's random alerts.** The 30-second interval that adds random alerts is not modelled. Only `addNotification` is.
- **Notification side effects.** The login card and the settings page call `addNotification`. `HandleLogin`, `HandleSignup`, `HandleSave` and `FinishSave` return the message text instead of adding an entry. The notification type (error or success) is not returned.
- ScanModal.Scanner.TimerFired: its single report holds only while `onScanComplete` stays the same function. The device health page passes `handleScanComplete` (src/pages/DeviceHealth.jsx:17-23, 70), which is a new function on every render, so the completion effect re-runs after each render of a completed scan. `CallbackChanged` models one such re-run, and `FullScan` shows the repeated report. When the parent re-renders is not modelled.
- **Navigation.** `navigate`, `onSuccess` and `onScanComplete` are out, apart from the found count the scan modal reports. `onClose` is reduced to a counter of calls.
- **Storage.**
  - JSON encoding is not modelled. A value is stored as a user record or a text.
  - A non-user value under the session key counts as no user. The real code would try to parse it.
  - The `useLocalStorage` hook is not in the source files. The settings page receives its stored value, or none, and keeps its preferences in a field.
- **Strings.** Lengths are counted in characters rather than UTF-16 code units. The 6-character password rule therefore differs only for characters outside the Basic Multilingual Plane.
- **Markup.** Disabled inputs and buttons, hidden Save/Cancel buttons, the mobile-app message and the password-visibility toggles are not modelled. The methods accept calls that the page would not offer.
- **Times.** History times are instants in milliseconds, not `toLocaleTimeString` text.
- **Presentation components.** Cards, legends, the theme toggle and the avatar emoji display are out. The avatars are kept as data.
- **SignUpPage.SignUpForm.FinishSubmit:** the catch branch of the sign-up submit is not modelled, because a resolved timer promise cannot throw.
- **Logging.** Console output is not modelled.
