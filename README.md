# Quiz hub front-end core, modelled in Dafny

This project models the parts of a corporate quiz/training web front-end that
carry behaviour, as opposed to markup and mock data:

- **Session state holder** (`useAuth`): five cells (`user`, `profile`,
  `session`, `loading`, `error`) and the two browser storage areas, changed by
  sign-in, sign-up, sign-out, auth-change events, the startup session restore
  and the arrival of a profile fetch. `authUser` and the display name are
  derived from the cells. The class `Auth.AuthStore` holds the cells; each of
  its methods is specified by a pure step function on `Auth.AuthState`, and the
  lifecycle properties are lemmas about those functions.
- **Role gate** (`ProtectedRoute`): a decision over loading, `authUser`, the
  profile's role and the required role (`Route.Decide`).
- **Quiz editor** (`QuizCreationDialog`): list operations on questions keyed by
  id, the submit validator and the form reset (`QuizEditor`; the dialog's
  fields are the class `QuizEditor.QuizDialog`).
- **Small rules**: avatar URL construction (`Avatar`), department alert filter
  and row predicates (`DepartmentReports`), and the leaderboard's rank icon,
  department colour, name fallback and avatar initial (`Leaderboard`).

The hosted auth service and its profile table are not modelled: each call
into them is an `Auth.Outcome` (success with a value, or failure with a
message) passed to the operation that awaited it. Each asynchronous handler
is one atomic step; a handler that starts a profile fetch returns the id it
fetches for, and the fetch's arrival is the separate step
`Auth.AuthStore.ProfileFetchSettled`. Question ids made from the clock are a
parameter (`freshId`). The department list, a constant empty array in the
component, is a parameter.

Files: `options.dfy` (Option), `subsequences.dfy` (order-preserving
selection), `auth.dfy`, `route.dfy`, `quiz_editor.dfy`, `avatar.dfy`,
`department_reports.dfy`, `leaderboard.dfy`.

### Behaviour of the code a reader may not expect

- A failed profile fetch only sets the error text and keeps any profile
  loaded earlier (`Auth.FetchFailureKeepsEarlierProfile`).
- Sign-in writes no identity cell; the service's auth-change event does
  that. On failure it stores the message and re-raises it
  (`Auth.AuthStore.SignIn` returns the failure).
- An auth event without a session clears the profile, but the startup
  restore without a session leaves `profile` as it was (`Auth.RestoreStep`).
- An auth event for a different identity keeps the held profile until the
  new fetch settles (`Auth.EventPairsNewIdentityWithHeldProfile`).

## Model

| member | source | states |
|---|---|---|
| `Auth.Initial` | src/hooks/useAuth.ts:20-24 | user, profile, session and error start empty and loading starts true, so there is no authenticated user |
| `Auth.AuthStore.constructor` | src/hooks/useAuth.ts:20-24 | the holder starts in the initial state over the given storage areas |
| `Auth.LocalPart` | src/hooks/useAuth.ts:200 | the result is a prefix of the email without '@', followed in the email by '@' when shorter: the text before the first '@' |
| `Auth.LocalPartIsUnique` | src/hooks/useAuth.ts:200 | those three facts determine the local part uniquely |
| `Auth.DisplayName` | src/hooks/useAuth.ts:200 | the display name is never empty: the email's local part, or "User" when that is empty or the email is missing |
| `Auth.DeriveAuthUser` | src/hooks/useAuth.ts:197-202 | authUser exists exactly when both user and profile do; it carries both, the display name, and the email or "" |
| `Auth.AuthStore.CurrentAuthUser` | src/hooks/useAuth.ts:197-202 | the holder's authUser is present exactly when its user and profile cells are |
| `Auth.ContainsIffOccurs` | src/hooks/useAuth.ts:92 | `Contains` holds exactly when the part occurs at some position of the key |
| `Auth.WithoutAuthKeys` | src/hooks/useAuth.ts:89-102 | the purged storage keeps exactly the entries whose key neither starts with "supabase.auth." nor contains "sb-", with their values |
| `Auth.IsAuthKey` | src/hooks/useAuth.ts:92 | a key is an auth key exactly when it starts with "supabase.auth." or "sb-" occurs somewhere in it |
| `Auth.PurgeAuthKeys` | src/hooks/useAuth.ts:91-95 | the loop over every key removes exactly the auth keys and leaves every other entry untouched |
| `Auth.PurgeIsIdempotent` | src/hooks/useAuth.ts:89-102 | purging a purged storage area changes nothing |
| `Auth.AuthStore.CleanupAuthState` | src/hooks/useAuth.ts:89-102 | both storage areas are purged and no other cell changes |
| `Auth.CredentialCallSettled` | src/hooks/useAuth.ts:43-87 | a settled sign-in or sign-up ends with loading false, error empty on success and the failure message on failure, and user, profile, session and authUser unchanged |
| `Auth.AuthStore.SignIn` | src/hooks/useAuth.ts:43-62 | sign-in returns the service's answer (re-raising a failure) and changes the state as `CredentialCallSettled` says |
| `Auth.AuthStore.SignUp` | src/hooks/useAuth.ts:64-87 | sign-up does the same with the sign-up answer |
| `Auth.SignOutStep` | src/hooks/useAuth.ts:104-138 | after sign-out user, profile, session and error are empty, authUser is absent, loading is unchanged and both storage areas are purged |
| `Auth.AuthStore.SignOut` | src/hooks/useAuth.ts:104-138 | sign-out reaches `SignOutStep` of the old state whether or not the remote sign-out failed |
| `Auth.SignOutIsIdempotent` | src/hooks/useAuth.ts:104-138 | signing out twice ends in the same state as once |
| `Auth.FetchTarget` | src/hooks/useAuth.ts:147-151 | a profile fetch is scheduled exactly when the session carries a user, for that user's id |
| `Auth.AuthEventStep` | src/hooks/useAuth.ts:142-163 | an auth event sets session and user at once; without a session it clears profile and ends loading; with one it leaves profile and loading for the fetch, so authUser stays absent if no profile was held |
| `Auth.AuthStore.OnAuthStateChange` | src/hooks/useAuth.ts:142-165 | the listener reaches `AuthEventStep` and returns the id it fetches the profile for |
| `Auth.RestoreStep` | src/hooks/useAuth.ts:168-182 | the startup restore sets session and user; without a stored session it only ends loading; profile and error are untouched |
| `Auth.AuthStore.RestoreSession` | src/hooks/useAuth.ts:168-183 | the restore reaches `RestoreStep` and returns the id it fetches the profile for |
| `Auth.ProfileFetchStep` | src/hooks/useAuth.ts:149-159 | a settled fetch ends loading; success sets the profile; failure sets the error "Failed to load user profile" and keeps the earlier profile |
| `Auth.AuthStore.ProfileFetchSettled` | src/hooks/useAuth.ts:149-179 | the arrival of either path's fetch reaches `ProfileFetchStep` |
| `Auth.SignInReachesAuthUserOnlyThroughProfile` | src/hooks/useAuth.ts:142-159 | after sign-in and its auth event the identity is set but authUser is absent; it appears only once the profile fetch succeeds |
| `Auth.RestoreReproducesAuthUser` | src/hooks/useAuth.ts:168-179 | restoring a stored session and loading its profile gives an authUser with the stored identity and the profile's role, loading false and no error |
| `Auth.FetchFailureKeepsEarlierProfile` | src/hooks/useAuth.ts:153-158 | a failed fetch leaves an existing authUser in place and sets the error |
| `Auth.EventPairsNewIdentityWithHeldProfile` | src/hooks/useAuth.ts:144-152 | an event for another identity pairs it with the profile already held until the new fetch settles |
| `Route.IsUserTryingAdminAccess` | src/components/ProtectedRoute.tsx:49 | the administrator message is chosen only when the required role differs from the profile's |
| `Route.Decide` | src/components/ProtectedRoute.tsx:17-96 | loading shows the loading view; no authUser shows the fallback or the access-denied card; children are shown exactly when authenticated and the required role is absent or equal to the profile's; otherwise the restricted view, with the administrator message exactly when admin is required of a user |
| `Route.IdentityWithoutProfileIsNotAdmitted` | src/components/ProtectedRoute.tsx:28-45 | an identity without a profile never gets the children, and once loading is over gets the fallback or the denied card |
| `Route.SignedOutSeesFallback` | src/components/ProtectedRoute.tsx:28-45 | after sign-out, when not loading, only the fallback or the denied card is shown |
| `Route.UserNeverReachesAdminArea` | src/components/ProtectedRoute.tsx:48-73 | a user-role profile never reaches an admin-only area and gets the administrator message |
| `QuizEditor.BlankQuestion` | src/components/QuizCreationDialog.tsx:40-46 | a blank question has the given id, empty text, four empty options, answer 0 and 10 points |
| `QuizEditor.InitialQuestions` | src/components/QuizCreationDialog.tsx:31-37 | the initial list is the single blank question with id "1" |
| `QuizEditor.AddedQuestion` | src/components/QuizCreationDialog.tsx:39-48 | adding grows the list by one blank question at the end and keeps the earlier questions |
| `QuizEditor.WithoutId` | src/components/QuizCreationDialog.tsx:52 | the filter keeps, in order, exactly the questions whose id differs, each as many times as it occurred, and drops every copy of the others |
| `QuizEditor.RemovedQuestion` | src/components/QuizCreationDialog.tsx:50-54 | removal is a no-op on one question and otherwise is the id filter, keeping every question with another id with its multiplicity |
| `QuizEditor.WithoutAbsentId` | src/components/QuizCreationDialog.tsx:52 | filtering an id no question has leaves the list as it is |
| `QuizEditor.WithoutIdDropsAtMostOne` | src/components/QuizCreationDialog.tsx:52 | with distinct ids the filter drops at most one question |
| `QuizEditor.RemoveKeepsAQuestion` | src/components/QuizCreationDialog.tsx:50-54 | with distinct ids a non-empty list is never emptied by removal |
| `QuizEditor.DuplicateIdsEmptyTheList` | src/components/QuizCreationDialog.tsx:50-54 | two questions sharing an id are removed together, emptying the list |
| `QuizEditor.AddKeepsIdsDistinct` | src/components/QuizCreationDialog.tsx:39-48 | adding with an unused id keeps ids distinct, and the initial list has distinct ids |
| `QuizEditor.RemoveKeepsIdsDistinct` | src/components/QuizCreationDialog.tsx:50-54 | removal keeps ids distinct |
| `QuizEditor.SetField` | src/components/QuizCreationDialog.tsx:58 | setting a field changes that field only; id and options never change |
| `QuizEditor.UpdatedQuestion` | src/components/QuizCreationDialog.tsx:56-60 | length and order are kept, questions with another id are unchanged, matching ones get the field set |
| `QuizEditor.ReplacedOption` | src/components/QuizCreationDialog.tsx:65 | only the option at the index changes; an index out of range changes nothing |
| `QuizEditor.UpdatedOption` | src/components/QuizCreationDialog.tsx:62-68 | questions with another id are unchanged; matching ones change only the chosen option |
| `QuizEditor.AnyEmptyOption` | src/components/QuizCreationDialog.tsx:71 | true exactly when some option is empty |
| `QuizEditor.IsIncomplete` | src/components/QuizCreationDialog.tsx:71 | a question is incomplete exactly when its text is empty or some option is empty |
| `QuizEditor.AnyIncomplete` | src/components/QuizCreationDialog.tsx:71 | true exactly when some question has empty text or an empty option |
| `QuizEditor.FormAccepts` | src/components/QuizCreationDialog.tsx:71 | a submit is accepted exactly when title and week are non-empty and every question's text and options are non-empty |
| `QuizEditor.ValidationIgnoresAnswerAndPoints` | src/components/QuizCreationDialog.tsx:71 | changing a correct answer or the points never changes the verdict |
| `QuizEditor.ResetFormIsRejected` | src/components/QuizCreationDialog.tsx:88-99 | the reset form is not accepted until it is filled in |
| `QuizEditor.QuizDialog.constructor` | src/components/QuizCreationDialog.tsx:27-37 | the dialog starts with empty title, description and week, time limit "30" and the initial question list |
| `QuizEditor.QuizDialog.SetTitle` | src/components/QuizCreationDialog.tsx:119 | the title input changes only the title |
| `QuizEditor.QuizDialog.SetDescription` | src/components/QuizCreationDialog.tsx:140 | the description input changes only the description |
| `QuizEditor.QuizDialog.SetWeek` | src/components/QuizCreationDialog.tsx:129 | the week input changes only the week |
| `QuizEditor.QuizDialog.SetTimeLimit` | src/components/QuizCreationDialog.tsx:152 | the time-limit input changes only the time limit |
| `QuizEditor.QuizDialog.AddQuestion` | src/components/QuizCreationDialog.tsx:39-48 | the question list becomes `AddedQuestion` of the old one |
| `QuizEditor.QuizDialog.RemoveQuestion` | src/components/QuizCreationDialog.tsx:50-54 | the question list becomes `RemovedQuestion` of the old one |
| `QuizEditor.QuizDialog.UpdateQuestion` | src/components/QuizCreationDialog.tsx:56-60 | the question list becomes `UpdatedQuestion` of the old one |
| `QuizEditor.QuizDialog.UpdateOption` | src/components/QuizCreationDialog.tsx:62-68 | the question list becomes `UpdatedOption` of the old one |
| `QuizEditor.QuizDialog.HandleSubmit` | src/components/QuizCreationDialog.tsx:70-102 | a rejected submit changes nothing and the dialog stays open; an accepted one resets every field and closes the dialog |
| `Avatar.InitialCustomization` | src/components/AvatarCustomizer.tsx:16-22 | the customization starts with a transparent background |
| `Avatar.BaseUrl` | src/components/AvatarCustomizer.tsx:60 | the base URL is exactly the service host and the entry's style followed by "/svg?seed=" and the entry's seed, with nothing in between |
| `Avatar.EffectiveBackground` | src/components/AvatarCustomizer.tsx:59 | a non-empty custom background wins, otherwise the stored one is used |
| `Avatar.GenerateAvatarUrl` | src/components/AvatarCustomizer.tsx:57-66 | the URL starts with the base URL; a transparent background gives the base URL, any other appends "&backgroundColor=" and the colour |
| `Avatar.UrlDeterminesBackground` | src/components/AvatarCustomizer.tsx:57-66 | for one style, two URLs are equal exactly when their effective backgrounds are |
| `Avatar.StoredBackgroundAsArgument` | src/components/AvatarCustomizer.tsx:143 | passing the stored colour explicitly gives the same URL as passing none |
| `Avatar.InitialUrlsAreBase` | src/components/AvatarCustomizer.tsx:25-46 | the style table has twenty entries and the initial customization yields the base URLs |
| `Avatar.SelectBackground` | src/components/AvatarCustomizer.tsx:128 | picking a colour sets the background and leaves the other fields unchanged |
| `Avatar.OfferedBackgroundsInUrl` | src/components/AvatarCustomizer.tsx:48-55 | of the six offered swatches, the transparent one gives the base URL, every other one appends its own colour value, and different swatches give different URLs |
| `DepartmentReports.NeedsAlert` | src/components/DepartmentReports.tsx:21 | a department needing an alert is never shown as performing well |
| `DepartmentReports.ShowsLowPerformerRow` | src/components/DepartmentReports.tsx:124 | a department showing the low-performer row always needs an alert |
| `DepartmentReports.ShowsNonParticipantRow` | src/components/DepartmentReports.tsx:142 | an alerted department without low performers always shows the non-participant row |
| `DepartmentReports.ShowsPerformingWell` | src/components/DepartmentReports.tsx:160 | a department shown as performing well is under both alert thresholds |
| `DepartmentReports.AlertRequired` | src/components/DepartmentReports.tsx:20-22 | the alert list is an order-preserving selection holding exactly the departments with low performers or more than five non-participants, each as often as it occurs in the input |
| `DepartmentReports.BannerOf` | src/components/DepartmentReports.tsx:37-44 | the banner is shown exactly when some department needs an alert, and reports the alert list's length |
| `DepartmentReports.GridOf` | src/components/DepartmentReports.tsx:73-80 | an empty list shows the "No Department Data" placeholder, any other list one card per department |
| `DepartmentReports.PerformingWellIsNeverAlerted` | src/components/DepartmentReports.tsx:160 | a department shown as performing well is never in the alert list and has no low-performer row |
| `DepartmentReports.AlertedShowsAnIssueRow` | src/components/DepartmentReports.tsx:124-165 | an alerted department shows an issue row and is not shown as performing well |
| `DepartmentReports.EmptyDataShowsPlaceholder` | src/components/DepartmentReports.tsx:18-22 | with the component's empty data there is no banner and the placeholder is shown |
| `Leaderboard.NatToString` | src/components/Leaderboard.tsx:34 | a position is written as one or more decimal digits without a leading zero |
| `Leaderboard.IntToString` | src/components/Leaderboard.tsx:34 | a non-negative position is written in one or more digits without a leading zero that read back as the position; a negative one as a minus sign followed by the digits of its magnitude |
| `Leaderboard.ParseNatToString` | src/components/Leaderboard.tsx:34 | reading the digits back gives the position |
| `Leaderboard.PositionTextIsInjective` | src/components/Leaderboard.tsx:34 | different positions are written differently |
| `Leaderboard.GetRankIcon` | src/components/Leaderboard.tsx:25-36 | 1, 2 and 3 map to trophy, medal and award, and any other position to "#" followed by the position |
| `Leaderboard.DepartmentColor` | src/components/Leaderboard.tsx:38-49 | a named department gets its colour class, any other the grey default |
| `Leaderboard.NamedDepartmentColors` | src/components/Leaderboard.tsx:39-47 | the seven named departments have pairwise different colours, none the default |
| `Leaderboard.EntryName` | src/components/Leaderboard.tsx:15 | the entry name is never empty: the display name if non-empty, else the email if non-empty, else "You"; any name other than "You" is the display name or the email |
| `Leaderboard.AvatarFallback` | src/components/Leaderboard.tsx:78 | the fallback is one character: the name's first, or '?' when the name is missing or empty |
| `Leaderboard.LeaderboardData` | src/components/Leaderboard.tsx:12-23 | the leaderboard holds one entry, the current user's, in "Your Department" |
| `Leaderboard.RowsFrom` | src/components/Leaderboard.tsx:61-73 | the row at offset k shows the entry at k with rank icon for the start position plus k |
| `Leaderboard.Rows` | src/components/Leaderboard.tsx:61-73 | the row at index k shows the rank icon of k+1, so the first row shows the trophy |
| `Leaderboard.CurrentUserRow` | src/components/Leaderboard.tsx:12-23 | the current user's row shows the trophy, the entry name, its first letter and the default colour |
| `Leaderboard.SignedInUserListedByDisplayName` | src/components/Leaderboard.tsx:15 | when the leaderboard is given the session holder's `authUser`, the entry is named by its display name, which is never empty |

## Left out

- The hosted auth service and profile store: every call is an outcome parameter, not network behaviour.
- Asynchronous scheduling: the deferred profile fetch and promise interleaving. Each handler is one atomic step and each fetch arrival a second step, so the `loading` true state that sign-in and sign-up show while their call is awaited is not a separate state of the model.
- Page redirects and reloads (`window.location`), console logging and toast notifications.
- Auth.AuthStore.SignOut: the outer catch, reached only if the storage purge itself throws, is not modelled; storage access is taken to succeed.
- Auth.AuthStore.SignOut: the remote sign-out's own effect on the service (and the auth event it triggers) is outside the model; the event is `OnAuthStateChange`.
- QuizEditor.UpdatedQuestion: the source sets any field named by a string; the model covers the three fields the dialog uses (question text, correct answer, points).
- `parseInt` results that are not numbers (NaN points or answers) are not modelled; points and answers are integers.
- Question ids made from the clock are the `freshId` parameter.
- Leaderboard.AvatarFallback: `charAt(0)` returns one UTF-16 code unit, so a name starting with a character outside the Basic Multilingual Plane yields half a surrogate pair; the model's strings are sequences of characters and it takes the whole first character.
- Avatar.GenerateAvatarUrl: requires an index inside the twenty-entry table; outside it the source reads a field of `undefined` and throws.
- The avatar customizer's other fields (hair, skin and clothing colour) are never read, and its avatar initial (`userName.charAt(0)`) is not modelled.
- Leaderboard.DepartmentColor: a JavaScript object lookup also finds inherited names such as "toString"; the model treats the table as a plain map.
- Leaderboard.IntToString: positions are integers; non-integer numbers are not modelled.
- DepartmentReports: the display-only fields (rates, scores, trend) and the reminder and export handlers, which only log.
- The employee and admin dashboards, the analytics placeholders, the login page and the index page: mock data and markup, and floating-point percentages.
