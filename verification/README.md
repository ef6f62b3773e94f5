# CityPulse session and intake core, in Dafny

CityPulse is a civic issue-reporting system. Citizens register, log in and report
neighbourhood problems such as potholes and water leaks. They attach photos and then follow each
report's progress. This project models the logic at its core and proves properties about it:

- **Backend sessions** (`AuthController`). Registration, login and refresh-token rotation
  run over a user collection. Each user has a single refresh-token slot, so a rotation makes
  the superseded token fail from then on.
- **Client session state** (`AuthContext`). The pure `authReducer` keeps the invariant "an
  authenticated state has a user and a token". The provider's `login`, `register`,
  `logout`, `clearError` and `verifyToken` write `localStorage` and dispatch actions in a
  fixed order.
- **Issue intake** (`IssueModel`, `IssueController`). The Issue schema is modelled as a
  validator with defaults and trim setters. The `createIssue` handler uploads all media
  files or none, defaults a falsy priority to `medium`, and takes the reporter from the
  authenticated user.
- **Sign-up form** (`RegisterForm`). The zod schema is modelled as an ordered list of failed
  checks. `onSubmit` decides exactly which fields go into the multipart body.
- **Small UI helpers**. The navigation bar's initials, display name and active link are in
  `Navigation`. The tracking page's search filter, badge colours, timeline cut and empty
  state are in `TrackIssues`.

Two helper modules are shared. `Common` holds the optional value, the HTTP response envelope
and JavaScript truthiness. `Text` holds `trim` with the exact ECMAScript white-space set,
ASCII case mapping, `includes`, and the first line that a regular-expression `.` can scan.

External services appear only as values:

- JWT signing: the tokens a handler issues are parameters.
- JWT verification: a fixed function of the store.
- Password comparison: a fixed predicate of the store.
- Media uploads: one result per file.
- HTTP replies on the client: a reply value per request.
- The e-mail syntax check: a predicate passed in.

Where the description of the system and the code differ, the model follows the code. An issue
document the schema rejects, such as one with the category "weather", is described as a
validation error with a 4xx answer. `createIssue` catches every error and answers 500
"Server Error", and `IssueController.IssueStore.CreateIssue` does the same.

## Model

| member | source | states |
|---|---|---|
| Text.Trim | citizen/src/components/Navigation.tsx:23-24 | the result is empty exactly when the input is all white space; otherwise it neither starts nor ends with white space |
| Text.TrimRemovesMargins | citizen/src/components/Navigation.tsx:23-24 | the trimmed string is a contiguous piece of the input, and everything before and after it is white space |
| Text.TrimKeepsFirst | citizen/src/components/Navigation.tsx:23-24 | trimming keeps the first character of a string that does not start with white space |
| Text.Lower | citizen/src/pages/TrackIssues.tsx:130-132 | lower-casing keeps the length and maps each character on its own |
| Text.LowerIdempotent | citizen/src/pages/TrackIssues.tsx:130-132 | lower-casing twice gives the same as lower-casing once |
| Text.ContainsEmpty | citizen/src/pages/TrackIssues.tsx:129-133 | every string includes the empty string |
| Text.FirstLine | citizen/src/components/auth/RegisterForm.tsx:26 | what `.*` scans from the start: a prefix without line terminators, ending at the first terminator or at the end |
| AuthController.AvatarUrl | backend/controllers/authController.js:32-47 | no file gives a null avatar; an uploaded file gives its secure URL |
| AuthController.RotateSupersedes | backend/controllers/authController.js:148-158 | after a rotation, the user's other tokens are no longer current, the new token is current, and other users' tokens are unaffected |
| AuthController.OneCurrentTokenPerUser | backend/controllers/authController.js:148-158 | two tokens that are both current for the same user are equal |
| AuthController.RotateKeepsEmails | backend/controllers/authController.js:94-99 | a rotation keeps the set of users and the uniqueness of e-mail addresses |
| AuthController.UserStore.FindByEmail | backend/controllers/authController.js:24 | finds a user exactly when one has the e-mail address |
| AuthController.UserStore.Register | backend/controllers/authController.js:20-82 | duplicate e-mail: 400 and no change; failed upload or refused create: 500 and no change; otherwise 201, one new record without a refresh token, and a summary without password or address |
| AuthController.UserStore.Login | backend/controllers/authController.js:87-123 | succeeds exactly when the e-mail exists and the password matches; an unknown e-mail and a wrong password give the same 401; on success only that user's slot changes, to the returned refresh token |
| AuthController.UserStore.Refresh | backend/controllers/authController.js:135-170 | missing token: 400; failed verification: 401 "Invalid or expired refresh token"; unknown user or stale token: 401 "Invalid refresh token"; none of these changes anything; a current token is rotated, and the presented token stops being current when the new one differs |
| AuthController.ReplayAfterRotation | backend/controllers/authController.js:145-158 | register, log in and refresh once: that refresh succeeds, and replaying its token is refused with 401 |
| AuthContext.InitialState | citizen/src/contexts/AuthContext.tsx:59-65 | the initial state is consistent, not authenticated, loading, with no user or error and the stored token |
| AuthContext.Reduce | citizen/src/contexts/AuthContext.tsx:67-91 | every action keeps "authenticated implies user and token present" |
| AuthContext.AuthStartFrame | citizen/src/contexts/AuthContext.tsx:69-70 | AUTH_START sets loading, clears the error and keeps user, token and the authenticated flag |
| AuthContext.AuthSuccessEffect | citizen/src/contexts/AuthContext.tsx:71-79 | AUTH_SUCCESS authenticates with the payload's user and token, ends loading and clears the error |
| AuthContext.AuthFailureEffect | citizen/src/contexts/AuthContext.tsx:80-81 | AUTH_FAILURE clears user, token and the authenticated flag, ends loading and records the message |
| AuthContext.LogoutFrame | citizen/src/contexts/AuthContext.tsx:82-83 | LOGOUT clears user, token, error and the authenticated flag and keeps the loading flag |
| AuthContext.ClearErrorSetLoadingUnknownFrames | citizen/src/contexts/AuthContext.tsx:84-89 | CLEAR_ERROR changes only the error, SET_LOADING only the loading flag, and an unknown action nothing |
| AuthContext.ReachableConsistent | citizen/src/contexts/AuthContext.tsx:59-91 | every sequence of actions from a consistent state, the initial one included, ends in a consistent state |
| AuthContext.FailureMessage | citizen/src/contexts/AuthContext.tsx:136 | the server's message when it is truthy, otherwise the network-error text; never empty |
| AuthContext.AuthProvider.constructor | citizen/src/contexts/AuthContext.tsx:95-96 | the provider starts in the initial state built from the stored token |
| AuthContext.AuthProvider.Dispatch | citizen/src/contexts/AuthContext.tsx:96 | dispatching applies the reducer and keeps the state consistent |
| AuthContext.AuthProvider.Login | citizen/src/contexts/AuthContext.tsx:124-140 | on an answer, both tokens are stored before AUTH_SUCCESS and then "/" is opened; on an error, AUTH_FAILURE carries the message and storage is untouched |
| AuthContext.AuthProvider.Register | citizen/src/contexts/AuthContext.tsx:143-155 | on an answer, loading ends and the data comes back; on an error, AUTH_FAILURE with the message and the error is rethrown; storage never changes |
| AuthContext.AuthProvider.Logout | citizen/src/contexts/AuthContext.tsx:157-162 | both token keys are removed, then LOGOUT, then "/login"; the state is not authenticated |
| AuthContext.AuthProvider.ClearError | citizen/src/contexts/AuthContext.tsx:164-166 | only the error is cleared |
| AuthContext.AuthProvider.VerifyToken | citizen/src/contexts/AuthContext.tsx:100-119 | no stored token: only loading ends; a good `/auth/me`: authenticated with the stored token; a failed one: both keys removed and logged out; loading is false in every case |
| IssueModel.ParseCategory | backend/models/Issue.js:4-8 | accepts exactly the five category names |
| IssueModel.ParsePriority | backend/models/Issue.js:19-23 | accepts exactly the four priority names |
| IssueModel.ParseStatus | backend/models/Issue.js:42-46 | accepts exactly the three status names |
| IssueModel.NamesRoundTrip | backend/models/Issue.js:4-46 | every enumeration value is accepted under its own name |
| IssueModel.TrimmedPath | backend/models/Issue.js:9-18 | the trim setter keeps absence and trims a present value |
| IssueModel.ErrorPaths | backend/models/Issue.js:3-47 | the failing paths: a missing or unknown category; a missing or white-space-only description or location; a present but unknown priority or status; a missing reporter |
| IssueModel.Validate | backend/models/Issue.js:3-47 | rejects exactly when some path fails, reporting those paths; otherwise stores trimmed text, priority defaulting to medium, status defaulting to reported, and the media list and reporter as given |
| IssueModel.UnknownCategoryRejected | backend/models/Issue.js:4-8 | a category outside the enumeration is refused |
| IssueController.UploadAll | backend/controllers/issueController.js:12-28 | URLs come back only when every upload succeeds, one per file and in file order |
| IssueController.OneFailureSpoilsAll | backend/controllers/issueController.js:28 | one failed upload anywhere means no URLs at all |
| IssueController.MediaMatchesFiles | backend/controllers/issueController.js:12-28 | no files gives an empty media list; the route's limit of 5 files bounds the URLs to 5 |
| IssueController.DefaultPriority | backend/controllers/issueController.js:36 | a falsy priority becomes "medium"; any other value passes unchanged |
| IssueController.EmptyPriorityStoredAsMedium | backend/controllers/issueController.js:36 | an empty priority, which the schema alone would refuse, passes and is stored as medium |
| IssueController.IssueStore.CreateIssue | backend/controllers/issueController.js:7-52 | 201 with exactly one appended issue when every upload succeeds and the document validates; otherwise 500 and nothing stored; the reporter is the authenticated user; one URL per file; status reported; priority defaulted |
| RegisterForm.Failing | citizen/src/components/auth/RegisterForm.tsx:17-47 | running checks in order reports exactly those whose rule fails, never more than were run |
| RegisterForm.FailingKeepsOrder | citizen/src/components/auth/RegisterForm.tsx:17-47 | the report is a subsequence of the checks run, and a list of checks in run order gives a report in run order |
| RegisterForm.AllChecksInRunOrder | citizen/src/components/auth/RegisterForm.tsx:17-47 | the schema's checks run first name, last name, e-mail, password length, password strength, avatar, confirmation, each once |
| RegisterForm.FailedChecksInRunOrder | citizen/src/components/auth/RegisterForm.tsx:17-47 | the failed checks come in the order the schema runs them, each once, so a short password's length check precedes its strength check |
| RegisterForm.OnlyLastFails | citizen/src/components/auth/RegisterForm.tsx:44-47 | when every check but the last holds, the report is the last check alone |
| RegisterForm.FailedChecks | citizen/src/components/auth/RegisterForm.tsx:17-47 | each check is reported exactly when its rule fails: names shorter than 2, a bad e-mail, a password shorter than 6 or without lower case, upper case and digit, a bad avatar, a confirmation that differs |
| RegisterForm.Issues | citizen/src/components/auth/RegisterForm.tsx:17-47 | one issue per failed check, in the same order, with its path and message; nothing is ever reported under phone |
| RegisterForm.ValidIffAllRules | citizen/src/components/auth/RegisterForm.tsx:17-47 | the form is accepted exactly when all seven rules hold |
| RegisterForm.MismatchOnConfirmPath | citizen/src/components/auth/RegisterForm.tsx:44-47 | a mismatched confirmation on an otherwise valid form gives one error, under confirmPassword |
| RegisterForm.ShownErrors | citizen/src/components/auth/RegisterForm.tsx:68-71 | the resolver's errors are empty exactly when the schema reports no issue |
| RegisterForm.FirstIssuePerPath | citizen/src/components/auth/RegisterForm.tsx:68-71 | a field shows an error exactly when some issue is under it, and it shows the first such issue's message |
| RegisterForm.ShortPasswordShowsLength | citizen/src/components/auth/RegisterForm.tsx:22-28 | a password shorter than 6 shows "Password must be at least 6 characters" under password, even when it is also too weak |
| RegisterForm.WeakPasswordShowsStrength | citizen/src/components/auth/RegisterForm.tsx:22-28 | a password of 6 or more without lower case, upper case and digit shows the strength message |
| RegisterForm.ChecksIgnorePhone | citizen/src/components/auth/RegisterForm.tsx:30 | changing the phone value changes no check's outcome |
| RegisterForm.PhoneIrrelevant | citizen/src/components/auth/RegisterForm.tsx:30 | the phone value never changes the errors |
| RegisterForm.SingleLineStrength | citizen/src/components/auth/RegisterForm.tsx:22-28 | for a one-line password, the pattern holds exactly when it has a lower-case letter, an upper-case letter and a digit |
| RegisterForm.SecondLineNotScanned | citizen/src/components/auth/RegisterForm.tsx:25-28 | an upper-case letter after a line break does not satisfy the pattern |
| RegisterForm.BuildFormData | citizen/src/components/auth/RegisterForm.tsx:89-103 | the body starts with firstName, lastName, email and password; phone comes only when truthy; only the first avatar file comes, and only when there is one; confirmPassword is never sent |
| RegisterForm.RegisterFormView.OnSubmit | citizen/src/components/auth/RegisterForm.tsx:86-115 | clears the context's error, then registers; the success flag and the onSuccess call happen only on a truthy result |
| RegisterForm.RegisterFormView.HandleSubmit | citizen/src/components/auth/RegisterForm.tsx:64-71 | an invalid form shows the first error of each field and changes nothing else; a valid one shows no errors, sends the body, and ends with the same auth state, storage, dispatches, success flag and onSuccess count as `onSubmit` |
| Navigation.Initial | citizen/src/components/Navigation.tsx:23-24 | empty exactly for a missing or blank name; otherwise the upper-cased first non-space character |
| Navigation.GetInitials | citizen/src/components/Navigation.tsx:22-26 | one or two letters: "NA" for two blank names, the one initial when only one name is non-blank, both initials otherwise |
| Navigation.InitialsNA | citizen/src/components/Navigation.tsx:25 | "NA" exactly when both names are blank or the initials are N and A |
| Navigation.InitialOfName | citizen/src/components/Navigation.tsx:23-24 | a name not starting with white space contributes its upper-cased first letter |
| Navigation.FallbackLooksLikeInitials | citizen/src/components/Navigation.tsx:22-26 | names starting with "n" and "A" give the same initials as no names |
| Navigation.KeepTruthy | citizen/src/components/Navigation.tsx:28 | keeps only non-empty names taken from the input and loses none of them; a single value is kept exactly when it is truthy |
| Navigation.KeepTruthyAppend | citizen/src/components/Navigation.tsx:28 | filtering a concatenation is filtering each part, in order; with the single-value case this fixes the result for every list |
| Navigation.Join | citizen/src/components/Navigation.tsx:28 | joining no parts gives ""; joining one part gives that part; with two or more, the first part and a separator come first |
| Navigation.JoinAppend | citizen/src/components/Navigation.tsx:28 | joining two non-empty lists one after the other puts exactly one separator between their joins |
| Navigation.FullName | citizen/src/components/Navigation.tsx:28 | both names joined by one space, the single non-empty name, or "User" when neither is non-empty |
| Navigation.IsActive | citizen/src/components/Navigation.tsx:20 | a path is active exactly when it is a prefix of the location as long as the location, that is, equal to it |
| Navigation.NoPrefixMatching | citizen/src/components/Navigation.tsx:20 | a location below a path does not make that path active |
| Navigation.AtMostOneActive | citizen/src/components/Navigation.tsx:53-85 | at most one of the four bar links is highlighted at a time |
| TrackIssues.Filter | citizen/src/pages/TrackIssues.tsx:129-133 | keeps exactly the matching issues, each as often as it occurs in the input and none that does not match, as a subsequence in the original order |
| TrackIssues.EmptyTermKeepsAll | citizen/src/pages/TrackIssues.tsx:129-133 | an empty search term keeps every issue |
| TrackIssues.OnlySearchFieldsMatter | citizen/src/pages/TrackIssues.tsx:129-133 | lists that agree on title, id and location keep the same positions, whatever their other fields hold |
| TrackIssues.SearchIgnoresCase | citizen/src/pages/TrackIssues.tsx:129-133 | lower-casing the term does not change the result |
| TrackIssues.StatusColor | citizen/src/pages/TrackIssues.tsx:107-116 | success exactly for "Resolved", warning exactly for "In Progress", secondary for every other status |
| TrackIssues.PriorityColor | citizen/src/pages/TrackIssues.tsx:118-127 | destructive exactly for "High", warning exactly for "Medium", muted for every other priority |
| TrackIssues.Timeline | citizen/src/pages/TrackIssues.tsx:227 | the first updates in stored order, at most three of them |
| TrackIssues.View | citizen/src/pages/TrackIssues.tsx:249-256 | the empty state appears exactly when no issue matches; its hint depends on whether the term is non-empty |
| TrackIssues.EmptyStateWithoutTerm | citizen/src/pages/TrackIssues.tsx:249-256 | without a term, the empty state appears exactly when there are no issues, with the nothing-reported hint |

## Left out

- JWT signing and verification. Issued tokens are parameters, and verification under the
  refresh secret is a fixed function. Two refresh tokens issued for one user in the same second
  can be identical, because the payload is the id plus a seconds-granularity issue time and
  refresh tokens have no expiry. Rotation facts therefore assume "new token differs from old".
- Password hashing and `matchPassword`. The User model is not part of this model, so
  matching is an opaque predicate.
- AuthController.UserStore.Register: whether `User.create` accepts a record is a parameter,
  because the User schema is not part of this model. The default role "citizen" is assumed
  from the client's User type. The `else` branch answering 400 "Invalid user data" cannot be
  reached, because `User.create` either returns a document or throws, so it is not modelled.
- Database and network failures, such as a failing `findOne`, `save` or `findById`. These
  would answer 500 (401 inside `refreshToken`) and are not modelled. Concurrent requests,
  including two refreshes of the same token racing, are not modelled either: the model is
  sequential.
- The media-host upload streams and the concurrency of `Promise.all`. Each file is one
  upload result. The remote files left behind when one upload fails are not modelled.
- Document `_id` values and timestamps, ObjectId casting, and non-string request values.
- The `getMe` handler and the `protect`, multer, Express and axios plumbing. Only the outcome
  each handler picks is kept.
- Text.Lower: case mapping covers the ASCII letters only, not Unicode `toLowerCase`/`toUpperCase`.
- Navigation.GetInitials: the bound of two characters holds for the ASCII case mapping; a
  Unicode upper-casing that expands one character into several is not modelled.
- Navigation.Initial: `charAt(0)` takes the first UTF-16 code unit, while the model takes the
  first code point, so a name that starts with a character outside the Basic Multilingual Plane
  gives a lone surrogate in the component and the whole character here.
- RegisterForm.FailedChecks: lengths count code points, not UTF-16 code units. Zod's
  `.email()` is an abstract predicate. The `instanceof FileList` test is taken as true
  whenever an avatar value is present.
- The avatar preview (`URL.createObjectURL`), the show-password toggles and all rendering
  are left out.
- The status icons, date formatting and the hard-coded sample issues of the tracking page
  are left out. The issue list is a parameter.
- The Community, Dashboard, Login and ReportIssue pages and the App router are presentational
  and are not modelled.
