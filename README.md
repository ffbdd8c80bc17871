# ApexCity client decision rules, in Dafny

ApexCity is an Android client that citizens use to report civic problems such
as potholes, garbage and broken streetlights, and to follow their complaints.
Most of its code is view wiring and HTTP calls. Inside the screens there is a
set of small decision rules, and this project models those rules and proves
what they promise:

- `Session` is the preferences store. `SessionManager` is a class over a
  `map<string, Value>`. It has the save, get, first-launch and clear
  operations, with their defaults for absent keys.
- `Auth` covers the login and signup forms. It has the trimmed, ordered
  first-failure validators and the success path that writes the token and the
  user to the session before the main screen opens. Google sign-in is
  included.
- `Main` is the main activity:
  - the logged-in gate and the choice of first screen;
  - the bottom navigation and the drawer;
  - the logout dialog and the back key.
- `ReportSelection` holds the category cards and what each passes to the
  manual form.
- `ManualReport` is the manual report form. It has:
  - a bounded image list (at most five images);
  - gallery picks cut down to the room that is left;
  - removal of the first occurrence;
  - the ordered validation;
  - the submit button's state.
- `AIReport` is the AI-assisted report. It holds the selected image, the
  detected fields, the "correct" and "wrong" answers, and the location check
  on submit.
- `MyReports` covers the user's complaint list:
  - the status filter and the case-insensitive search;
  - the chips;
  - the empty state.
- `Home` has the three counters and the five-complaint preview.
- `IssueAdapter` is the complaint row:
  - "time ago" text from a millisecond difference;
  - the status badge;
  - the diff callback and the click guard.
- `ComplaintDetail` is the complaint detail screen:
  - the case-insensitive status colour and progress;
  - the four-step timeline;
  - the status dialog and the share text.
- `Chat` is the assistant. It has the ordered keyword classifier, the
  append-only message log and the listening toggle.
- `Flows` covers what one screen passes to the next and what that screen
  reads back.

Supporting modules:

- `Text` models Kotlin's ASCII `trim`, `isBlank`, `lowercase` and
  `contains(ignoreCase)`.
- `Seqs` models `filter`, `take` and `MutableList.remove`.
- `Indent` models `lines()`, `joinToString("\n")` and `trimIndent()`.
- `Validation` is an ordered list of checks together with its first failure.
- `Models` holds the data classes and `Complaint.toIssue`.
- `Ui` holds screens, fragment arguments and navigation steps.

Every backend answer is a parameter of type `Call<T>`. It is either
`Answered(isSuccessful, body, message)` or `Threw(error)`, so each handler
is modelled as one atomic step that receives the answer. Clock readings are
also parameters, and so are parsed dates, location fixes, geocoder results
and permission answers. A screen's views are reduced to the fields that the
handlers change: visibilities, texts, the list an adapter was given, and the
navigation step taken.

## Model

| member | source | states |
|---|---|---|
| Models.DefaultIssue | app/src/main/java/com/example/apexcity/data/model/Models.kt:98-110 | a default `Issue` has status "pending", empty strings, zero coordinates and the creation clock |
| Models.FirstImageUrl | app/src/main/java/com/example/apexcity/data/model/Models.kt:120 | the first image's url when there are images, otherwise "" |
| Models.ToIssue | app/src/main/java/com/example/apexcity/data/model/Models.kt:113-127 | id, title, category, description and status are copied; location is the address; imageUrl is the first image's url or ""; userId is the user's id or ""; latitude and longitude are copied; createdAt is the parsed date |
| Models.ToIssueForgets | app/src/main/java/com/example/apexcity/data/model/Models.kt:113-127 | two complaints that agree on the projected fields give the same `Issue`, so priority, notes and the other images are dropped |
| Session.SessionManager.constructor | app/src/main/java/com/example/apexcity/utils/SessionManager.kt:6-9 | the manager reads whatever the preferences file already holds |
| Session.SessionManager.StringAt | app/src/main/java/com/example/apexcity/utils/SessionManager.kt:26-28 | a string key reads as null exactly when it is absent, and otherwise gives the stored string |
| Session.SessionManager.GetAuthToken | app/src/main/java/com/example/apexcity/utils/SessionManager.kt:26-28 | null iff no token is stored; otherwise the stored token |
| Session.SessionManager.GetUserId | app/src/main/java/com/example/apexcity/utils/SessionManager.kt:41 | null iff no user id is stored; otherwise the stored id |
| Session.SessionManager.GetUserName | app/src/main/java/com/example/apexcity/utils/SessionManager.kt:42 | null iff no name is stored; otherwise the stored name |
| Session.SessionManager.GetUserEmail | app/src/main/java/com/example/apexcity/utils/SessionManager.kt:43 | null iff no email is stored; otherwise the stored email |
| Session.SessionManager.GetUserRole | app/src/main/java/com/example/apexcity/utils/SessionManager.kt:44 | null iff no role is stored; otherwise the stored role |
| Session.SessionManager.IsLoggedIn | app/src/main/java/com/example/apexcity/utils/SessionManager.kt:46 | true iff the logged-in flag is stored as true (default false) |
| Session.SessionManager.IsFirstLaunch | app/src/main/java/com/example/apexcity/utils/SessionManager.kt:48 | false iff the first-launch flag is stored as false (default true) |
| Session.SessionManager.SaveAuthToken | app/src/main/java/com/example/apexcity/utils/SessionManager.kt:22-24 | the token reads back; every other key is unchanged, including both flags |
| Session.SessionManager.SaveUserData | app/src/main/java/com/example/apexcity/utils/SessionManager.kt:30-39 | the four getters return the saved values and the user is logged in; the token and first-launch flag are unchanged |
| Session.SessionManager.SetFirstLaunchCompleted | app/src/main/java/com/example/apexcity/utils/SessionManager.kt:50-52 | first launch reads false afterwards; the logged-in flag is unchanged |
| Session.SessionManager.ClearSession | app/src/main/java/com/example/apexcity/utils/SessionManager.kt:54-56 | the store is empty: every getter is null, not logged in, first launch again |
| Session.FreshStoreDefaults | app/src/main/java/com/example/apexcity/utils/SessionManager.kt:26-48 | an empty store reads as logged out, first launch, no token and no user |
| Session.TokenAloneDoesNotSignIn | app/src/main/java/com/example/apexcity/utils/SessionManager.kt:22-24 | saving a token into a logged-out store leaves it logged out |
| Auth.ValidateLogin | app/src/main/java/com/example/apexcity/ui/AuthActivity.kt:112-122 | accepted iff email and password are both non-empty; an empty email is reported first |
| Auth.ValidateSignup | app/src/main/java/com/example/apexcity/ui/AuthActivity.kt:124-142 | accepted iff name, email and phone are non-empty and the password has at least 6 characters |
| Auth.LoginReportsFirstFailure | app/src/main/java/com/example/apexcity/ui/AuthActivity.kt:112-122 | the login error is the first failing check in the order email, password |
| Auth.SignupReportsFirstFailure | app/src/main/java/com/example/apexcity/ui/AuthActivity.kt:124-142 | the signup error is the first failing check in the order name, email, phone, password |
| Auth.SignupPasswordRule | app/src/main/java/com/example/apexcity/ui/AuthActivity.kt:137-141 | with the other fields filled, signup passes iff the password has at least 6 characters, and otherwise reports the length error |
| Auth.LoginClick | app/src/main/java/com/example/apexcity/ui/AuthActivity.kt:65-72 | a request is built iff neither trimmed field is blank; it carries the trimmed texts; a blank email is the error, and any error is what the validator reports on the trimmed fields |
| Auth.SignupClick | app/src/main/java/com/example/apexcity/ui/AuthActivity.kt:75-84 | a request is built iff name, email and phone are not blank and the trimmed password has at least 6 characters; it carries the trimmed texts; any error is what the validator reports on the trimmed fields |
| Auth.SaveAuthResponse | app/src/main/java/com/example/apexcity/ui/AuthActivity.kt:149-156 | the token and the four user fields read back, the user is logged in, first launch is unchanged |
| Auth.CompleteAuthCall | app/src/main/java/com/example/apexcity/ui/AuthActivity.kt:144-165 | with a body, the session is signed in and the main screen opens; a failed answer toasts its message; an exception toasts "Error: "; in both failure cases the session is untouched |
| Auth.PerformLogin | app/src/main/java/com/example/apexcity/ui/AuthActivity.kt:144-165 | a good answer writes its token and user to the session (signed in) and opens main as a returning user; otherwise the session is untouched and the toast is "Login failed: " with the message, or "Error: " with the exception's |
| Auth.PerformSignup | app/src/main/java/com/example/apexcity/ui/AuthActivity.kt:167-190 | a good answer writes its token and user to the session (signed in) and opens main as a new user; otherwise the session is untouched and the toast is "Signup failed: " with the message, or "Error: " with the exception's |
| Auth.OnGoogleSignInResult | app/src/main/java/com/example/apexcity/ui/AuthActivity.kt:197-234 | other request codes are ignored; a failed account, a missing id token or a bad answer leaves the session untouched, each with its own toast; a good answer writes its token and user to the session and opens main as a returning user |
| Auth.OnLoginClick | app/src/main/java/com/example/apexcity/ui/AuthActivity.kt:65-72 | the call is made iff validation passes; a rejected form reports the validator's error and leaves the session untouched; a good answer writes its token and user to the session; a failed answer leaves it untouched |
| Auth.OnSignupClick | app/src/main/java/com/example/apexcity/ui/AuthActivity.kt:75-84 | the call is made iff validation passes; a rejected form reports the validator's error and leaves the session untouched; a good answer writes its token and user to the session and opens main as a new user; a failed answer leaves it untouched |
| Main.InitialScreen | app/src/main/java/com/example/apexcity/ui/MainActivity.kt:40-47 | the report chooser iff the user is new, home otherwise |
| Main.BottomNavTarget | app/src/main/java/com/example/apexcity/ui/MainActivity.kt:68-88 | the four items open home, my reports, map and chat; any other id is not handled |
| Main.BottomNavDistinct | app/src/main/java/com/example/apexcity/ui/MainActivity.kt:68-88 | different handled items open different screens |
| Main.DrawerToast | app/src/main/java/com/example/apexcity/ui/MainActivity.kt:93-112 | profile, settings, rate and contribute toast "Profile", "Settings", "Rate Us" and "Contribute"; leaderboard and logout do not toast |
| Main.MainScreen.OnCreate | app/src/main/java/com/example/apexcity/ui/MainActivity.kt:22-48 | routes to sign-in iff not logged in, and then installs nothing and loads no screen; otherwise loads the initial screen |
| Main.MainScreen.OpenDrawer | app/src/main/java/com/example/apexcity/ui/MainActivity.kt:57-59 | the drawer is open; nothing else changes |
| Main.MainScreen.OnBottomNavItem | app/src/main/java/com/example/apexcity/ui/MainActivity.kt:68-88 | handled iff the item has a target, which becomes the current screen |
| Main.MainScreen.OnDrawerItem | app/src/main/java/com/example/apexcity/ui/MainActivity.kt:92-115 | every item closes the drawer and is handled; leaderboard loads its screen; logout shows the dialog |
| Main.MainScreen.ConfirmLogout | app/src/main/java/com/example/apexcity/ui/MainActivity.kt:128-131 | the session is cleared, so not logged in, and the screen routes to sign-in |
| Main.MainScreen.CancelLogout | app/src/main/java/com/example/apexcity/ui/MainActivity.kt:132 | the dialog closes and nothing else changes |
| Main.MainScreen.OnBackPressed | app/src/main/java/com/example/apexcity/ui/MainActivity.kt:141-147 | with the drawer open, back only closes it; otherwise the default back runs |
| ReportSelection.CardCategory | app/src/main/java/com/example/apexcity/ui/fragments/ReportIssueSelectionFragment.kt:37-63 | each card passes its own fixed category (admin and civic, citizen and safety, infrastructure, public utilities, traffic/transport, environment and public spaces, other), and each is an entry of the manual form's dropdown |
| ReportSelection.OnClick | app/src/main/java/com/example/apexcity/ui/fragments/ReportIssueSelectionFragment.kt:27-83 | back pops the stack; the AI card opens the AI report with no arguments; a card opens the manual form with exactly the argument "category", whose value is a dropdown entry; both openings go on the back stack |
| ReportSelection.CardCategoryInjective | app/src/main/java/com/example/apexcity/ui/fragments/ReportIssueSelectionFragment.kt:37-63 | the seven cards pass pairwise different categories |
| ReportSelection.EveryCategoryHasACard | app/src/main/java/com/example/apexcity/ui/fragments/ReportIssueSelectionFragment.kt:37-63 | every dropdown entry is passed by some card |
| ManualReport.CategoriesDistinct | app/src/main/java/com/example/apexcity/ui/fragments/ManualReportFragment.kt:45-53 | the dropdown has seven pairwise different entries |
| ManualReport.ValidateReport | app/src/main/java/com/example/apexcity/ui/fragments/ManualReportFragment.kt:264-289 | passes iff category, title, description and location are non-empty, coordinates were captured and there is an image |
| ManualReport.ReportValidationIsFirstFailure | app/src/main/java/com/example/apexcity/ui/fragments/ManualReportFragment.kt:264-289 | the reported error is the first failing check in the order category, title, description, location, coordinates, images |
| ManualReport.SubmitAttempt | app/src/main/java/com/example/apexcity/ui/fragments/ManualReportFragment.kt:258-291 | the report is sent iff no trimmed field is blank, coordinates exist and there is an image; otherwise exactly the first failing check in the order category, title, description, location, coordinates, image is reported; the sent report holds the trimmed texts, the coordinates and every image |
| ManualReport.ManualReportForm.OnViewCreated | app/src/main/java/com/example/apexcity/ui/fragments/ManualReportFragment.kt:109-129 | a "category" argument fills the category and the toolbar title; a "preselected_image_uri" argument becomes the only image; the rest of the form is empty and submit is enabled |
| ManualReport.ManualReportForm.AddImageToList | app/src/main/java/com/example/apexcity/ui/fragments/ManualReportFragment.kt:214-230 | below five images the image is appended (duplicates included) and the list shown; at five the list is unchanged and the limit toast shows; no other field changes |
| ManualReport.ManualReportForm.OnCameraResult | app/src/main/java/com/example/apexcity/ui/fragments/ManualReportFragment.kt:56-67 | a photo actually taken is appended when there is room; the limit toast shows iff there is none; otherwise nothing changes |
| ManualReport.ManualReportForm.OnGalleryClick | app/src/main/java/com/example/apexcity/ui/fragments/ManualReportFragment.kt:144-150 | the picker launches iff fewer than five images are held; otherwise the limit toast shows |
| ManualReport.ManualReportForm.OnImagesPicked | app/src/main/java/com/example/apexcity/ui/fragments/ManualReportFragment.kt:70-76 | the first 5 - size picked images are appended in pick order; the count becomes min(5, size + picked) |
| ManualReport.ManualReportForm.OnRemoveImage | app/src/main/java/com/example/apexcity/ui/fragments/ManualReportFragment.kt:162-166 | only the first occurrence is removed and the order of the rest is kept; the list hides when it becomes empty |
| ManualReport.ManualReportForm.OnLocationFix | app/src/main/java/com/example/apexcity/ui/fragments/ManualReportFragment.kt:238-253 | the coordinates are captured; the address field shows the geocoded line, stays as it was when there is no address, or shows the coordinates when geocoding fails |
| ManualReport.ManualReportForm.ValidateAndSubmit | app/src/main/java/com/example/apexcity/ui/fragments/ManualReportFragment.kt:258-296 | the outcome is the submit attempt on the current fields; only a passing form disables the button and relabels it "Submitting..."; the fields are unchanged |
| ManualReport.ManualReportForm.OnSubmitResponse | app/src/main/java/com/example/apexcity/ui/fragments/ManualReportFragment.kt:338-360 | success pops the form with the success toast; a failed answer or an exception re-enables the button and restores "Submit Report", with its own toast |
| ManualReport.PickedBatchWithinLimit | app/src/main/java/com/example/apexcity/ui/fragments/ManualReportFragment.kt:70-76 | a batch cut to the room left keeps the list within five and is a prefix of everything that was picked |
| AIReport.UriText | app/src/main/java/com/example/apexcity/ui/fragments/AIReportFragment.kt:310 | the image's string form, or "null" when no image is selected |
| AIReport.SubmitOutcome | app/src/main/java/com/example/apexcity/ui/fragments/AIReportFragment.kt:282-305 | a blank trimmed address is reported iff the address is blank; missing coordinates are reported iff the address is filled and there are no coordinates; otherwise success |
| AIReport.AIReportScreen.OnViewCreated | app/src/main/java/com/example/apexcity/ui/fragments/AIReportFragment.kt:35-39 | no image, nothing detected, no location, and every view as in the layout |
| AIReport.AIReportScreen.OnImageSelected | app/src/main/java/com/example/apexcity/ui/fragments/AIReportFragment.kt:181-195 | the image is selected, the placeholder hides and the loading overlay shows; the detected fields are unchanged |
| AIReport.AIReportScreen.OnCameraResult | app/src/main/java/com/example/apexcity/ui/fragments/AIReportFragment.kt:45-56 | analysis starts iff a photo was taken, and then that photo is selected |
| AIReport.AIReportScreen.OnGalleryResult | app/src/main/java/com/example/apexcity/ui/fragments/AIReportFragment.kt:59-64 | analysis starts iff an image was picked, and then that image is selected; backing out changes nothing |
| AIReport.AIReportScreen.OnAnalysisResult | app/src/main/java/com/example/apexcity/ui/fragments/AIReportFragment.kt:194-245 | the overlay hides on every path; the three detected fields are replaced together and shown only for a successful answer with a body; otherwise they are kept and the failure or error is toasted |
| AIReport.AIReportScreen.OnCorrect | app/src/main/java/com/example/apexcity/ui/fragments/AIReportFragment.kt:123-127 | only the address controls and the submit button appear |
| AIReport.AIReportScreen.OnWrong | app/src/main/java/com/example/apexcity/ui/fragments/AIReportFragment.kt:307-317 | the redirect toast, then the manual form with "preselected_image_uri" set to the image's string form ("null" when none), on the back stack |
| AIReport.AIReportScreen.OnLocationFix | app/src/main/java/com/example/apexcity/ui/fragments/AIReportFragment.kt:262-278 | the coordinates are captured and the address field follows the geocoder as in the manual form; the detected fields are unchanged |
| AIReport.AIReportScreen.SubmitReport | app/src/main/java/com/example/apexcity/ui/fragments/AIReportFragment.kt:282-305 | pops iff the submit outcome is success; the toast is the success text or the outcome's error |
| Flows.OpenFormFromCard | app/src/main/java/com/example/apexcity/ui/fragments/ReportIssueSelectionFragment.kt:73-78 | the form opened from a card shows that card's category, which is a dropdown entry, and starts without images |
| Flows.OpenFormFromWrongAnswer | app/src/main/java/com/example/apexcity/ui/fragments/AIReportFragment.kt:307-312 | the form opened after "wrong" holds exactly the AI screen's image (as its string form) and no category |
| MyReports.StatusFilter | app/src/main/java/com/example/apexcity/ui/fragments/MyReportsFragment.kt:105-110 | no status keeps every complaint; otherwise every kept complaint has exactly that status (case-sensitive) |
| MyReports.SearchFilter | app/src/main/java/com/example/apexcity/ui/fragments/MyReportsFragment.kt:114-123 | an empty query keeps every complaint; otherwise every kept complaint matches the query in its title, description or address, ignoring case |
| MyReports.EverythingMatchesEmptyQuery | app/src/main/java/com/example/apexcity/ui/fragments/MyReportsFragment.kt:115-116 | every complaint matches the empty query, so the empty-query shortcut changes nothing |
| MyReports.StatusFilterMembers | app/src/main/java/com/example/apexcity/ui/fragments/MyReportsFragment.kt:109 | a complaint is kept iff it is in the list and has the status |
| MyReports.SearchFilterMembers | app/src/main/java/com/example/apexcity/ui/fragments/MyReportsFragment.kt:118-122 | a complaint is kept iff it is in the list and matches the query |
| MyReports.EmptyQueryShortcutAgrees | app/src/main/java/com/example/apexcity/ui/fragments/MyReportsFragment.kt:115-122 | the shortcut for the empty query gives what the filter itself would |
| MyReports.NarrowingsAreSubsequences | app/src/main/java/com/example/apexcity/ui/fragments/MyReportsFragment.kt:105-124 | both narrowings keep complaints in their original order, as a subsequence of the full list |
| MyReports.ChipStatus | app/src/main/java/com/example/apexcity/ui/fragments/MyReportsFragment.kt:62-67 | "all" means no status; the three status chips pick "Pending", "In Progress" and "Resolved"; any other chip is ignored |
| MyReports.MyReportsScreen.constructor | app/src/main/java/com/example/apexcity/ui/fragments/MyReportsFragment.kt:25-26 | both lists start empty and nothing is shown |
| MyReports.MyReportsScreen.UpdateUI | app/src/main/java/com/example/apexcity/ui/fragments/MyReportsFragment.kt:127-140 | an empty narrowed list shows the empty state and keeps the adapter's items; otherwise the list shows exactly the narrowed complaints |
| MyReports.MyReportsScreen.StartLoading | app/src/main/java/com/example/apexcity/ui/fragments/MyReportsFragment.kt:83-84 | the spinner shows and the list hides; nothing else changes |
| MyReports.MyReportsScreen.OnReportsLoaded | app/src/main/java/com/example/apexcity/ui/fragments/MyReportsFragment.kt:86-102 | the spinner hides; a good answer becomes both lists; the list shows them iff they are non-empty and the empty state shows iff they are empty, with the adapter keeping its items then; a failed answer or an exception shows the empty state and keeps the lists |
| MyReports.MyReportsScreen.FilterByStatus | app/src/main/java/com/example/apexcity/ui/fragments/MyReportsFragment.kt:105-112 | the narrowed list is recomputed from the full list by status, so the latest narrowing wins; the list shows it iff it is non-empty, and the empty state shows iff it is empty, with the adapter keeping its old items |
| MyReports.MyReportsScreen.SearchReports | app/src/main/java/com/example/apexcity/ui/fragments/MyReportsFragment.kt:114-125 | the narrowed list is recomputed from the full list by the query; the list shows it iff it is non-empty, and the empty state shows iff it is empty, with the adapter keeping its old items |
| MyReports.MyReportsScreen.OnChipsChanged | app/src/main/java/com/example/apexcity/ui/fragments/MyReportsFragment.kt:60-69 | only the first checked chip counts, and its status narrows the full list, with the list or the empty state shown as after a filter; no checked chip, or an unknown chip, changes nothing |
| MyReports.ItemClick | app/src/main/java/com/example/apexcity/ui/fragments/MyReportsFragment.kt:142-152 | as written, a tap opens the detail screen with only the argument "complaint_id" holding the complaint's id |
| MyReports.TappedComplaintNotShown | app/src/main/java/com/example/apexcity/ui/fragments/MyReportsFragment.kt:142-147 | the detail screen finds no issue in those arguments |
| MyReports.ItemClickFixed | app/src/main/java/com/example/apexcity/ui/fragments/MyReportsFragment.kt:142-152 | corrected: the detail screen receives the complaint's projection under the key it reads |
| MyReports.TappedComplaintShown | app/src/main/java/com/example/apexcity/ui/fragments/ComplaintDetailFragment.kt:35 | with the correction, the detail screen shows the tapped complaint's id, title, status and address |
| Home.Preview | app/src/main/java/com/example/apexcity/ui/fragments/HomeFragment.kt:78 | the first min(5, n) complaints, in order |
| Home.HomeScreen.constructor | app/src/main/java/com/example/apexcity/ui/fragments/HomeFragment.kt:32-37 | no counter is set and nothing is shown |
| Home.HomeScreen.OnStats | app/src/main/java/com/example/apexcity/ui/fragments/HomeFragment.kt:60-66 | only a successful answer with a body sets the three counters, to pending, in-progress and resolved; the list is unaffected |
| Home.HomeScreen.OnIssues | app/src/main/java/com/example/apexcity/ui/fragments/HomeFragment.kt:69-80 | an empty answer shows the empty state and hides the list; a non-empty one does the opposite and shows its preview; a failed answer changes nothing; the counters are unaffected |
| Home.HomeScreen.LoadData | app/src/main/java/com/example/apexcity/ui/fragments/HomeFragment.kt:56-85 | an exception from the statistics call skips everything else; otherwise an answer with a body sets all three counters and one without keeps them, and the list follows the complaints answer (an empty one shows the empty state and keeps the adapter's items); exceptions are swallowed |
| Home.HomeScreen.OnReportClick | app/src/main/java/com/example/apexcity/ui/fragments/HomeFragment.kt:87-92 | both report buttons open the report chooser on the back stack |
| IssueAdapter.TruncDiv | app/src/main/java/com/example/apexcity/ui/adapters/IssueAdapter.kt:95-97 | Kotlin's division of a `Long`, which truncates toward zero: positive iff the dividend reaches the divisor |
| IssueAdapter.Bucket | app/src/main/java/com/example/apexcity/ui/adapters/IssueAdapter.kt:87-107 | an unparseable date gives "Unknown"; a counted result has a positive count, which is the difference divided by its unit's milliseconds |
| IssueAdapter.BucketIntervals | app/src/main/java/com/example/apexcity/ui/adapters/IssueAdapter.kt:95-104 | days when the difference is at least a day, hours (1 to 23) below a day, minutes (1 to 59) below an hour, and "Just now" below a minute; each count is the difference divided by its unit |
| IssueAdapter.FutureIsJustNow | app/src/main/java/com/example/apexcity/ui/adapters/IssueAdapter.kt:99-103 | a date that is not in the past reads "Just now" |
| IssueAdapter.NatToString | app/src/main/java/com/example/apexcity/ui/adapters/IssueAdapter.kt:100-102 | a count prints as decimal digits without a leading zero |
| IssueAdapter.NatToStringRoundTrip | app/src/main/java/com/example/apexcity/ui/adapters/IssueAdapter.kt:100-102 | reading the printed digits back gives the count |
| IssueAdapter.TimeAgoText | app/src/main/java/com/example/apexcity/ui/adapters/IssueAdapter.kt:99-107 | a count reads as its digits, a space and the unit word (day, hour or min), with a final "s" iff the count is greater than 1; otherwise "Just now" or "Unknown" |
| IssueAdapter.StatusBackground | app/src/main/java/com/example/apexcity/ui/adapters/IssueAdapter.kt:78-85 | the pending, progress and resolved badges iff the status is exactly "Pending", "In Progress" or "Resolved" |
| IssueAdapter.BadgeIsCaseSensitive | app/src/main/java/com/example/apexcity/ui/adapters/IssueAdapter.kt:78-85 | lower-case statuses get the default badge |
| IssueAdapter.Bind | app/src/main/java/com/example/apexcity/ui/adapters/IssueAdapter.kt:49-76 | the row shows the title, description, address and status, the status badge, the first image when there is one, and the time-ago text |
| IssueAdapter.DiffCallbackConsistent | app/src/main/java/com/example/apexcity/ui/adapters/IssueAdapter.kt:111-119 | equal contents imply the same item; different ids are neither the same item nor the same contents |
| IssueAdapter.OnRowClick | app/src/main/java/com/example/apexcity/ui/adapters/IssueAdapter.kt:40-46 | the listener gets the row's complaint iff the position is real and a listener is set |
| Ui.GetString | app/src/main/java/com/example/apexcity/ui/fragments/ManualReportFragment.kt:119-128 | `Bundle.getString`: a value iff the key holds a string argument, and then that string |
| Ui.GetIssue | app/src/main/java/com/example/apexcity/ui/fragments/ComplaintDetailFragment.kt:17-22 | `Bundle.getParcelable`: a value iff the key holds a parcelled issue, and then that issue |
| ComplaintDetail.ShownIssue | app/src/main/java/com/example/apexcity/ui/fragments/ComplaintDetailFragment.kt:17-22 | the screen has an issue iff its arguments hold a parcelled issue under "issue" |
| ComplaintDetail.StatusColor | app/src/main/java/com/example/apexcity/ui/fragments/ComplaintDetailFragment.kt:64-70 | each of the four colours iff the lower-cased status is its status; grey iff it is none of them |
| ComplaintDetail.Progress | app/src/main/java/com/example/apexcity/ui/fragments/ComplaintDetailFragment.kt:79-84 | 25, 60 and 100 iff the lower-cased status is pending, in progress or resolved; 0 otherwise; never above 100 |
| ComplaintDetail.ProgressText | app/src/main/java/com/example/apexcity/ui/fragments/ComplaintDetailFragment.kt:85-86 | the progress as decimal digits followed by "%", which reads back as the progress |
| ComplaintDetail.PendingRecognised | app/src/main/java/com/example/apexcity/ui/fragments/ComplaintDetailFragment.kt:64-84 | "Pending" as the dialog spells it gives 25% and the pending colour |
| ComplaintDetail.InProgressRecognised | app/src/main/java/com/example/apexcity/ui/fragments/ComplaintDetailFragment.kt:64-84 | "In Progress" gives 60% and the progress colour |
| ComplaintDetail.ResolvedRecognised | app/src/main/java/com/example/apexcity/ui/fragments/ComplaintDetailFragment.kt:64-84 | "Resolved" gives 100% and the resolved colour |
| ComplaintDetail.RejectedRecognised | app/src/main/java/com/example/apexcity/ui/fragments/ComplaintDetailFragment.kt:64-84 | "Rejected" gives 0% and the rejected colour |
| ComplaintDetail.StatusChosenToast | app/src/main/java/com/example/apexcity/ui/fragments/ComplaintDetailFragment.kt:137-153 | choosing one of the four offered statuses only toasts "Status updated to" and that status |
| ComplaintDetail.Steps | app/src/main/java/com/example/apexcity/ui/fragments/ComplaintDetailFragment.kt:104-109 | four steps titled Submitted, Under Review, In Progress, Resolved, dated createdAt plus 0 to 3 days; the first is always complete |
| ComplaintDetail.Timeline | app/src/main/java/com/example/apexcity/ui/fragments/ComplaintDetailFragment.kt:101-109 | as written: Under Review is complete iff the status is not exactly "pending"; In Progress iff it is exactly "in progress" or "resolved"; Resolved iff exactly "resolved" |
| ComplaintDetail.StepsPrefixClosed | app/src/main/java/com/example/apexcity/ui/fragments/ComplaintDetailFragment.kt:104-109 | when each later flag implies the earlier one, the completed steps form a prefix |
| ComplaintDetail.TimelinePrefixClosed | app/src/main/java/com/example/apexcity/ui/fragments/ComplaintDetailFragment.kt:105-108 | the completed steps form a prefix for every status |
| ComplaintDetail.TimelineMissesCapitalisedStatus | app/src/main/java/com/example/apexcity/ui/fragments/ComplaintDetailFragment.kt:79-108 | "Pending" shows 25% but marks Under Review complete; "Resolved" shows 100% but leaves In Progress and Resolved incomplete |
| ComplaintDetail.TimelineFolded | app/src/main/java/com/example/apexcity/ui/fragments/ComplaintDetailFragment.kt:104-109 | corrected: the completion flags follow the progress (Under Review iff not 25%, In Progress iff at least 60%, Resolved iff 100%) |
| ComplaintDetail.TimelineFoldedPrefixClosed | app/src/main/java/com/example/apexcity/ui/fragments/ComplaintDetailFragment.kt:104-109 | the corrected steps also form a prefix |
| ComplaintDetail.TimelineFoldedAgrees | app/src/main/java/com/example/apexcity/ui/fragments/ComplaintDetailFragment.kt:104-109 | for a status already in lower case the correction changes nothing |
| ComplaintDetail.ShareLines | app/src/main/java/com/example/apexcity/ui/fragments/ComplaintDetailFragment.kt:156-164 | the intended share text: seven lines with id, title, category, location and status, a blank line, then the description |
| ComplaintDetail.TemplateLines | app/src/main/java/com/example/apexcity/ui/fragments/ComplaintDetailFragment.kt:156-164 | the raw template has nine lines: an empty first line, seven lines that start with the twelve-space indentation (the sixth of them blank) and a blank closing line |
| ComplaintDetail.ShareTextLayout | app/src/main/java/com/example/apexcity/ui/fragments/ComplaintDetailFragment.kt:156-164 | when no field breaks a line, the share text splits into exactly those seven lines |
| ComplaintDetail.TemplateNoBreaks | app/src/main/java/com/example/apexcity/ui/fragments/ComplaintDetailFragment.kt:156-164 | with single-line fields no line of the raw template holds a break |
| ComplaintDetail.PaddedLine | app/src/main/java/com/example/apexcity/ui/fragments/ComplaintDetailFragment.kt:157-163 | a template line is indented by exactly twelve spaces, and dropping them leaves the caption and the value |
| ComplaintDetail.TemplateIndents | app/src/main/java/com/example/apexcity/ui/fragments/ComplaintDetailFragment.kt:156-164 | every line of the template that is not blank is indented by twelve; the first and the last line are blank |
| ComplaintDetail.TemplateReindented | app/src/main/java/com/example/apexcity/ui/fragments/ComplaintDetailFragment.kt:156-164 | dropping twelve characters from each template line, and its blank first and last lines, leaves exactly the summary's seven lines |
| ComplaintDetail.TemplateTrimsToSummary | app/src/main/java/com/example/apexcity/ui/fragments/ComplaintDetailFragment.kt:156-164 | with single-line fields, `trimIndent` of the interpolated template is the intended summary |
| ComplaintDetail.ShareTextAsWritten | app/src/main/java/com/example/apexcity/ui/fragments/ComplaintDetailFragment.kt:156-164 | `shareComplaint` as written: with single-line fields its text is the intended summary (the two-line case is `ComplaintDetail.MultiLineDescriptionKeepsIndent`) |
| ComplaintDetail.SplitTemplateJoins | app/src/main/java/com/example/apexcity/ui/fragments/ComplaintDetailFragment.kt:156-164 | a description with a break joins into the template as one more line |
| ComplaintDetail.SplitTemplateLinesRead | app/src/main/java/com/example/apexcity/ui/fragments/ComplaintDetailFragment.kt:156-164 | that template splits into ten lines, the description's two among them |
| ComplaintDetail.SplitTemplateUnindented | app/src/main/java/com/example/apexcity/ui/fragments/ComplaintDetailFragment.kt:156-164 | an unindented second description line makes the common indentation 0 |
| ComplaintDetail.SplitTemplateReindented | app/src/main/java/com/example/apexcity/ui/fragments/ComplaintDetailFragment.kt:156-164 | with indentation 0 the first kept line still starts with the twelve spaces |
| ComplaintDetail.SplitShareTextPadded | app/src/main/java/com/example/apexcity/ui/fragments/ComplaintDetailFragment.kt:156-164 | with a two-line description the shared text begins with the twelve-space indentation and the id caption |
| ComplaintDetail.ShareTextHead | app/src/main/java/com/example/apexcity/ui/fragments/ComplaintDetailFragment.kt:156-164 | the intended summary begins with the id caption |
| ComplaintDetail.MultiLineDescriptionKeepsIndent | app/src/main/java/com/example/apexcity/ui/fragments/ComplaintDetailFragment.kt:156-164 | as written, such a description leaves every line indented, so the shared text differs from the intended one |
| ComplaintDetail.Share | app/src/main/java/com/example/apexcity/ui/fragments/ComplaintDetailFragment.kt:155-172 | corrected: with single-line fields the shared text splits into the seven intended lines |
| ComplaintDetail.IdLabel | app/src/main/java/com/example/apexcity/ui/fragments/ComplaintDetailFragment.kt:44 | "ID: " followed by exactly the id |
| Chat.Classify | app/src/main/java/com/example/apexcity/ui/fragments/ChatFragment.kt:234-261 | the lower-cased input is garbage iff it contains garbage or trash; road iff not garbage and it contains pothole or road; and so on through light, location/address and photo/picture/image; the fallback iff none occurs |
| Chat.StreetlightCoveredByLight | app/src/main/java/com/example/apexcity/ui/fragments/ChatFragment.kt:246 | the light group matches iff "light" occurs, so "streetlight" adds nothing |
| Chat.ClassifyIgnoresCase | app/src/main/java/com/example/apexcity/ui/fragments/ChatFragment.kt:237 | the input and its lower-cased form are classified alike |
| Chat.RepliesDistinct | app/src/main/java/com/example/apexcity/ui/fragments/ChatFragment.kt:238-260 | different topics get different answers |
| Chat.ViewType | app/src/main/java/com/example/apexcity/ui/fragments/ChatFragment.kt:294 | 1 iff the message is the user's, 0 iff it is the bot's |
| Chat.FirstMatch | app/src/main/java/com/example/apexcity/ui/fragments/ChatFragment.kt:136-137 | the first recognised text iff there is one |
| Chat.Exchange | app/src/main/java/com/example/apexcity/ui/fragments/ChatFragment.kt:137-140 | one spoken turn is the user's text followed by the bot's answer to it, each stamped with its own clock reading |
| Chat.ChatScreen.OnViewCreated | app/src/main/java/com/example/apexcity/ui/fragments/ChatFragment.kt:63-73 | the log holds only the welcome bot message, the mic is idle and the caption is still the layout's |
| Chat.ChatScreen.AddUserMessage | app/src/main/java/com/example/apexcity/ui/fragments/ChatFragment.kt:217-221 | appends one user message; the welcome stays first |
| Chat.ChatScreen.AddBotMessage | app/src/main/java/com/example/apexcity/ui/fragments/ChatFragment.kt:223-228 | appends one bot message; the welcome stays first |
| Chat.ChatScreen.ProcessUserInput | app/src/main/java/com/example/apexcity/ui/fragments/ChatFragment.kt:234-261 | appends exactly one bot message, the answer for the input's topic; navigates, to the AI report, iff the topic is photo; listening, the mic indicator and the caption are unchanged |
| Chat.ChatScreen.StartListening | app/src/main/java/com/example/apexcity/ui/fragments/ChatFragment.kt:172-186 | listening, with the mic indicator shown; the log is unchanged |
| Chat.ChatScreen.StopListening | app/src/main/java/com/example/apexcity/ui/fragments/ChatFragment.kt:188-194 | not listening, with the mic indicator gone; the log is unchanged |
| Chat.ChatScreen.OnMicClick | app/src/main/java/com/example/apexcity/ui/fragments/ChatFragment.kt:89-95 | while listening it stops, hiding the indicator; otherwise it starts, showing the indicator, when permission is held, and asks for it, changing nothing, when not; the log and the caption are kept |
| Chat.ChatScreen.OnPermissionResult | app/src/main/java/com/example/apexcity/ui/fragments/ChatFragment.kt:45-53 | granted starts listening with the indicator shown; refused toasts "Microphone permission required" and keeps listening and the indicator as they were; the log and the caption are kept |
| Chat.ChatScreen.OnReadyForSpeech | app/src/main/java/com/example/apexcity/ui/fragments/ChatFragment.kt:101-103 | the caption reads "Listening..." |
| Chat.ChatScreen.OnResults | app/src/main/java/com/example/apexcity/ui/fragments/ChatFragment.kt:135-142 | only the first match is used: the user's message, then the bot's answer, moving to the AI report iff the topic is photo; without a match the log is unchanged; listening stops and the indicator hides either way; the caption is kept |
| Chat.ChatScreen.OnEndOfSpeech | app/src/main/java/com/example/apexcity/ui/fragments/ChatFragment.kt:114-116 | listening stops and the indicator hides; the log and the caption are unchanged |
| Chat.ChatScreen.OnError | app/src/main/java/com/example/apexcity/ui/fragments/ChatFragment.kt:118-133 | listening stops and the indicator hides; the error's text is toasted; the log and the caption are unchanged |
| Chat.SpeechErrorTextsDistinct | app/src/main/java/com/example/apexcity/ui/fragments/ChatFragment.kt:120-131 | each recogniser error the screen knows has its own message |
| Chat.UnknownCodesShareText | app/src/main/java/com/example/apexcity/ui/fragments/ChatFragment.kt:130 | every other code reads "Unknown error" |
| Text.LowerChar | app/src/main/java/com/example/apexcity/ui/fragments/ChatFragment.kt:237 | `lowercase()` of one ASCII character: capitals move down by 32, everything else is kept, and no capital remains |
| Text.Lower | app/src/main/java/com/example/apexcity/ui/fragments/ChatFragment.kt:237 | same length, each character lower-cased |
| Text.LowerFolds | app/src/main/java/com/example/apexcity/ui/fragments/ComplaintDetailFragment.kt:64 | a text whose characters lower-case to another's lower-cases to it |
| Text.LowerIdempotent | app/src/main/java/com/example/apexcity/ui/fragments/ComplaintDetailFragment.kt:64 | lower-casing twice is lower-casing once |
| Text.TrimStartSpec | app/src/main/java/com/example/apexcity/ui/AuthActivity.kt:66 | the left trim is a suffix that starts with no white space, and only white space was removed |
| Text.TrimEndSpec | app/src/main/java/com/example/apexcity/ui/AuthActivity.kt:66 | the right trim is a prefix that ends with no white space, and only white space was removed |
| Text.Trim | app/src/main/java/com/example/apexcity/ui/AuthActivity.kt:66 | `trim()`: no longer than the text, and neither end is white space |
| Text.TrimIsSlice | app/src/main/java/com/example/apexcity/ui/AuthActivity.kt:66 | the trimmed text is a slice of the original |
| Text.TrimStartEmptyIffBlank | app/src/main/java/com/example/apexcity/ui/fragments/AIReportFragment.kt:283-285 | the left trim is empty iff the text is blank |
| Text.TrimEndKeepsNonBlank | app/src/main/java/com/example/apexcity/ui/fragments/AIReportFragment.kt:283-285 | a text with a character that is not white space keeps one after the right trim |
| Text.TrimEmptyIffBlank | app/src/main/java/com/example/apexcity/ui/fragments/AIReportFragment.kt:283-285 | `trim().isEmpty()` iff the text is blank |
| Text.TrimIdempotent | app/src/main/java/com/example/apexcity/ui/AuthActivity.kt:66 | trimming twice is trimming once |
| Text.ContainsEmpty | app/src/main/java/com/example/apexcity/ui/fragments/MyReportsFragment.kt:119 | every text contains the empty text |
| Text.ContainsInner | app/src/main/java/com/example/apexcity/ui/fragments/ChatFragment.kt:246 | a text that contains u + t + v contains t |
| Text.ContainsTransitive | app/src/main/java/com/example/apexcity/ui/fragments/ChatFragment.kt:240-252 | containment is transitive |
| Text.ContainsIgnoreCaseFolds | app/src/main/java/com/example/apexcity/ui/fragments/MyReportsFragment.kt:119-121 | the case of either side never matters: lower-casing the text, the query or both gives the same answer |
| Seqs.SubsequenceReflexive | app/src/main/java/com/example/apexcity/ui/fragments/MyReportsFragment.kt:93 | a list is a subsequence of itself |
| Seqs.Filter | app/src/main/java/com/example/apexcity/ui/fragments/MyReportsFragment.kt:109 | `filter`: no longer than the list, every kept element passes, and nothing is dropped when all pass |
| Seqs.FilterMembership | app/src/main/java/com/example/apexcity/ui/fragments/MyReportsFragment.kt:109 | an element is kept iff it is in the list and passes |
| Seqs.FilterCount | app/src/main/java/com/example/apexcity/ui/fragments/MyReportsFragment.kt:109 | every copy of a passing element is kept and no copy of a failing one, so duplicates survive the filter |
| Seqs.FilterIsSubsequence | app/src/main/java/com/example/apexcity/ui/fragments/MyReportsFragment.kt:109 | the kept elements keep their order |
| Seqs.Take | app/src/main/java/com/example/apexcity/ui/fragments/HomeFragment.kt:78 | `take(n)`: a prefix of length min(n, size) |
| Seqs.RemoveFirst | app/src/main/java/com/example/apexcity/ui/fragments/ManualReportFragment.kt:164 | `MutableList.remove`: one element fewer iff the element is present, and the multiset loses exactly one copy of it |
| Seqs.FirstIndex | app/src/main/java/com/example/apexcity/ui/fragments/ManualReportFragment.kt:164 | the position of the first occurrence |
| Seqs.RemoveFirstSplices | app/src/main/java/com/example/apexcity/ui/fragments/ManualReportFragment.kt:164 | removal cuts out exactly the first occurrence and keeps the order of the rest |
| Validation.FirstFailureNoneIffAllPass | app/src/main/java/com/example/apexcity/ui/AuthActivity.kt:112-142 | an ordered check list reports nothing iff every check passes |
| Validation.FirstFailureReportsEarliest | app/src/main/java/com/example/apexcity/ui/AuthActivity.kt:112-142 | it reports the error of the earliest failing check |
| Indent.Join | app/src/main/java/com/example/apexcity/ui/fragments/ComplaintDetailFragment.kt:156-164 | `joinToString("\n")`: a single line joins to itself |
| Indent.Lines | app/src/main/java/com/example/apexcity/ui/fragments/ComplaintDetailFragment.kt:164 | `lines()`: never empty |
| Indent.LinesCons | app/src/main/java/com/example/apexcity/ui/fragments/ComplaintDetailFragment.kt:164 | a break-free line, a break and a rest split into that line followed by the rest's lines |
| Indent.LinesOfJoin | app/src/main/java/com/example/apexcity/ui/fragments/ComplaintDetailFragment.kt:164 | splitting undoes joining when no line holds a break |
| Indent.JoinHead | app/src/main/java/com/example/apexcity/ui/fragments/ComplaintDetailFragment.kt:164 | a joined text begins with its first line |
| Indent.JoinAppend | app/src/main/java/com/example/apexcity/ui/fragments/ComplaintDetailFragment.kt:164 | joining two lists puts one break between their joins |
| Indent.IndentWidth | app/src/main/java/com/example/apexcity/ui/fragments/ComplaintDetailFragment.kt:164 | the indentation is never longer than the line |
| Indent.MinIndent | app/src/main/java/com/example/apexcity/ui/fragments/ComplaintDetailFragment.kt:164 | none iff every line is blank; otherwise the indentation of some line that is not blank, and no such line has less |
| Indent.Drop | app/src/main/java/com/example/apexcity/ui/fragments/ComplaintDetailFragment.kt:164 | `drop(n)`: the line from position n, or empty when it is shorter |
| Indent.UniformIndent | app/src/main/java/com/example/apexcity/ui/fragments/ComplaintDetailFragment.kt:164 | when every line that is not blank has the same indentation, that is the common indentation |
| Indent.IndentOfPadded | app/src/main/java/com/example/apexcity/ui/fragments/ComplaintDetailFragment.kt:157-163 | a blank pad followed by a character that is not white space gives a line indented by the pad's length |

## Left out

- Backend and model services are not modelled: the Retrofit interfaces, the HTTP calls and the JSON and multipart bodies. Each answer is an input of type `Call<T>`, and the temporary image files are not modelled.
- Views, Glide image loading, toasts' durations, fragment containers and the activity intents are not modelled. A screen is the state its handlers change, and a navigation step is a `Transition` value.
- Coroutines and `lifecycleScope` are not modelled. Each handler runs as one atomic step, and a call and its answer are never interleaved with other input.
- Clocks are not modelled: `System.currentTimeMillis`, `Date()` and `SimpleDateFormat` parsing and formatting. The current time, the parsed `createdAt` and the millisecond difference behind "time ago" are parameters. The formatted dates on the detail screen are left out.
- Location fixes and the geocoder are not modelled. A fix is a coordinates value and the geocoder's outcome is a `GeocodeResult`. Permission checks and answers are parameters.
- Floating point is not computed on. Coordinates are kept as `real` values that are only copied, never calculated with. The text the geocoder failure shows is a parameter.
- Speech recognition, text-to-speech and the mic animations (`app/src/main/java/com/example/apexcity/ui/fragments/ChatFragment.kt` 196-215) are not modelled. Only the listening flag, the mic indicator, the caption and the message log are modelled. The recogniser's error codes are a datatype, not Android's numbers.
- Case folding and white space are ASCII only. `lowercase()`, `ignoreCase`, `trim()` and `isBlank()` follow Unicode in Kotlin. Only ASCII capitals and the ASCII white space (tab through carriage return, the separators 0x1C to 0x1F, and the space) are modelled.
- `lines()` in the model splits only on '\n'. Kotlin also splits on "\r\n" and '\r'.
- Indent.Reindent: not given a contract of its own. Its properties are proved on the share text (`ComplaintDetail.TemplateTrimsToSummary`, `ComplaintDetail.SplitTemplateReindented`).
- Indent.TrimIndent: not given a contract of its own; it is `Lines`, `MinIndent`, `Reindent` and `Join` composed, and what it does to the share template is proved in `ComplaintDetail.TemplateTrimsToSummary` (single-line fields) and `ComplaintDetail.MultiLineDescriptionKeepsIndent` (a two-line description). A general statement over every text is not made.
- Home.HomeScreen.OnStats: the counters hold the numbers rather than their decimal text.
- The camera launch, the file-provider URIs and the "camera permission" and "location permission" toasts are not modelled. A taken photo arrives as `OnCameraResult`.
- IssueAdapter.Bind: leaves out the status colour computed in `bind`. It is never used.
- The row's image placeholder is not modelled.
- The sign-in screen's tab switching, back button and Google client set-up are not modelled. They only change views.
- The main screen's notification icon and its toast are not modelled.
- `WelcomeActivity.kt`, `LandingActivity.kt`, `MapFragment.kt`, `LeaderboardFragment.kt` and `ImagePreviewAdapter.kt` are not part of this model. They hold onboarding animations, map glue and thin wiring.

## Findings

| source | as written | input that shows it | evidently intended | confidence | as-written member | corrected member |
|---|---|---|---|---|---|---|
| app/src/main/java/com/example/apexcity/ui/fragments/MyReportsFragment.kt:142-147 | a tapped complaint opens the detail screen with its id under "complaint_id", but the detail screen reads only a parcelled issue under "issue" (`ComplaintDetailFragment.kt` 17-22, 35) | any complaint tapped in the list | the detail screen receives the complaint's `Issue` under "issue", as `ComplaintDetailFragment.newInstance` does | high, not executed | `MyReports.ItemClick`, `MyReports.TappedComplaintNotShown` | `MyReports.ItemClickFixed`, `MyReports.TappedComplaintShown` |
| app/src/main/java/com/example/apexcity/ui/fragments/ComplaintDetailFragment.kt:104-108 | the timeline compares the raw status with lower-case words, while progress and colour lower-case it first (lines 64 and 79) | status "Pending" (the spelling used by the status dialog and the list's chips) marks Under Review complete at 25%; "Resolved" shows 100% with In Progress and Resolved incomplete | completion follows the same case-insensitive status as the progress | medium, not executed | `ComplaintDetail.Timeline`, `ComplaintDetail.TimelineMissesCapitalisedStatus` | `ComplaintDetail.TimelineFolded`, `ComplaintDetail.TimelineFoldedAgrees` |
| app/src/main/java/com/example/apexcity/ui/fragments/ComplaintDetailFragment.kt:156-164 | `trimIndent()` runs after the fields are interpolated, so a field's own line breaks take part in the indentation count | a description "a\nb": its unindented second line makes the common indentation 0, and every other line keeps its twelve spaces | the template's indentation is removed and the fields are kept as they are | medium, not executed | `ComplaintDetail.ShareTextAsWritten`, `ComplaintDetail.MultiLineDescriptionKeepsIndent` | `ComplaintDetail.Share`, `ComplaintDetail.ShareTextLayout` |
