# SchoolMUN registration site — a verified model of its logic

The site is a React front end for a school Model United Nations conference. It registers schools
and individual delegates, lets students and teachers sign up and sign in, and gives signed-in users
a dashboard with their delegates and documents. Everything it stores is held in memory: a module
of mock arrays (`users`, seeded with one admin account, and `registrations`) and two browser
cookies (`auth_token`, `user_data`).

This project models that logic in Dafny and proves what it promises:

- **Account store and session** (`Auth`, `AuthContext`, `SessionCodec`, `Csv`):
  - `AuthStore` is a class over `seq<User>`, `seq<Registration>` and a cookie `map<string, string>`.
  - Sign-up refuses an exactly equal email. Sign-in accepts any password for a known email.
  - Registrations are always stored as pending.
  - The `user_data` cookie holds an encoding of the user record, and decoding it gives back the same user.
  - The CSV export has one header line and one line per registration, with no quoting.
  - `AuthProvider` holds `user` and `loading`.
- **Routing** (`Routes`): the `ProtectedRoute` decision, the exact-path route table, and the catch-all redirect to `/`.
- **Forms** (`Forms` and the five page modules):
  - Each zod schema is a list of checks. Each check names a field, a pass/fail test and a message.
  - A form's errors are the map from each failing field to its message.
  - Each page's submit handler is a class method over the page state.
- **Lists and small state machines**:
  - the delegate roster (add, merge-by-id edit, delete-by-id, committee names, stat cards);
  - toggle-membership lists, for committee preferences and expanded FAQ answers;
  - the three-step wizard.
- **Search, filters and counts**: committees, resources, documents, announcements, FAQs, delegates and the admin dashboard.
  - Searches are case-insensitive substring tests, and a filter keeps the original order.
  - Also modelled: the counts and "N thing(s) found" labels, label formatting, and the icon and colour lookups.

Email shape is the function parameter `isEmail`. Ids, tokens and timestamps, drawn in the site
from the clock and `Math.random`, are parameters of the operations that use them. So is the choice
made in the `confirm()` dialog.

## Model

| member | source | states |
|---|---|---|
| Seqs.FindFirst | src/lib/auth.ts:60 | `find` as an index: the first element that passes the test, every earlier one failing, or None iff no element passes; sign-in and sign-up use it with exact email equality, the router with exact path equality, the committee lookup with id equality |
| Auth.FindByEmail | src/lib/auth.ts:60 | the result is the index of the first user with exactly that email, and none iff no user has it |
| Auth.EmailMatchIsCaseSensitive | src/lib/auth.ts:60 | the seeded admin is found by 'admin@school.edu' and not by 'Admin@school.edu' |
| Auth.NewRegistration | src/lib/auth.ts:120-127 | the stored record keeps the submitted form and has status 'pending' whatever the form held |
| Auth.AuthStore.constructor | src/lib/auth.ts:6-17 | the store starts with the seeded admin account, no registrations, and either no cookies or both cookies of a saved session, whose user reads back as the current user |
| Auth.AuthStore.SetAuthToken | src/lib/auth.ts:31-43 | both cookies are written; afterwards the token reads back and the current user is exactly the user written |
| Auth.AuthStore.GetAuthToken | src/lib/auth.ts:36-38 | a token is returned iff the auth_token cookie is set, and it is that cookie |
| Auth.AuthStore.GetCurrentUser | src/lib/auth.ts:40-43 | a user is returned iff the user_data cookie is set and not empty, and that cookie is exactly the returned user's stored text |
| Auth.AuthStore.GetRegistrations | src/lib/auth.ts:118 | the list has one entry per stored registration, and in a valid store every entry is pending |
| Auth.AuthStore.RemoveAuthToken | src/lib/auth.ts:36-48 | both cookies are removed; afterwards there is no token and no current user |
| Auth.AuthStore.SignUp | src/lib/auth.ts:50-90 | a duplicate email fails with 'User already exists with this email' and changes nothing; a hashing failure fails with 'Registration failed' and changes nothing; otherwise exactly one user with the input's fields is appended after the unchanged earlier users, and that user becomes the current user with a token |
| Auth.AuthStore.SignIn | src/lib/auth.ts:92-111 | an unknown email fails with 'Invalid email or password' and writes no cookie; a known email signs in the first user with that email, whatever the password |
| Auth.AuthStore.SignOut | src/lib/auth.ts:113-115 | both cookies are removed and nothing else changes; afterwards there is no current user and no token |
| Auth.AuthStore.AddRegistration | src/lib/auth.ts:120-127 | exactly one pending record is appended and users and cookies are unchanged |
| SessionCodec.DecodeEncode | src/lib/auth.ts:33 | reading back the stored text of any user gives that very user |
| SessionCodec.EncodeDecode | src/lib/auth.ts:42 | any text that reads as a user is exactly that user's stored text |
| SessionCodec.UnescapeEscape | src/lib/auth.ts:33 | a string value written with escaping reads back as itself, followed by the text after its closing quote |
| SessionCodec.EscapeUnescape | src/lib/auth.ts:42 | only escaped text reads as a string value: whatever is read is the escaping of the value read |
| Csv.GradeCell | src/lib/auth.ts:136 | a missing or empty grade prints as 'N/A', any other grade as itself |
| Csv.ExportText | src/lib/auth.ts:129-141 | the export always opens with the header line; it is exactly the header line iff there are no registrations, and otherwise a line break follows the header |
| Csv.ExportLines | src/lib/auth.ts:129-141 | when no cell holds a line break, the export has 1 + n lines: the header first, then one line per registration in insertion order |
| Csv.HeaderLine | src/lib/auth.ts:131 | the header line splits into the seven column names |
| Csv.RowFields | src/lib/auth.ts:132-141 | a row without commas in its cells splits back into exactly its seven cells |
| Csv.CommaBreaksColumns | src/lib/auth.ts:132-141 | a comma inside any cell makes the row split into more than seven fields, because cells are not quoted |
| AuthContext.AuthProvider.constructor | src/contexts/AuthContext.tsx:15-16 | the provider starts with no user and loading true |
| AuthContext.AuthProvider.RefreshUser | src/contexts/AuthContext.tsx:18-21 | the user becomes exactly the store's current user, and loading is unchanged |
| AuthContext.AuthProvider.Mount | src/contexts/AuthContext.tsx:23-26 | after the mount effect the user is the stored session user, or none, and loading is false |
| AuthContext.AuthProvider.SignOut | src/contexts/AuthContext.tsx:28-31 | both cookies are removed, users and registrations are unchanged, and the user becomes none |
| AuthContext.UseAuth | src/contexts/AuthContext.tsx:47-52 | outside a provider the result is the error 'useAuth must be used within an AuthProvider'; inside one it is the context value |
| Routes.Guard | src/App.tsx:23-39 | loading shows the spinner whatever the user; once loaded, no user redirects to '/login' and a user sees the child |
| Routes.Render | src/App.tsx:48-92 | a path in the table renders its route, through the guard iff the route is guarded; a path missing from the table redirects to '/' |
| Routes.PathsDistinct | src/App.tsx:48-89 | no two routes share a path |
| Routes.GuardedExactlyDashboard | src/App.tsx:48-89 | there are twelve routes; a route is guarded iff its path starts with '/dashboard', which holds for the last four |
| Routes.LookupOwnPath | src/App.tsx:48-89 | each route's own path finds exactly that route |
| Routes.PublicPathsShow | src/App.tsx:48-55 | each of the eight public paths shows its page, whatever the loading flag and the user |
| Routes.DashboardPathsGuarded | src/App.tsx:57-89 | each of the four dashboard paths renders what the guard decides for its page |
| Routes.UnknownPathRedirectsHome | src/App.tsx:92 | every path missing from the table redirects to '/' |
| Routes.LoginTargetsRedirectHome | src/App.tsx:92 | '/profile' and '/admin', where sign-in and sign-up navigate, and '/signup' all redirect to '/' |
| Forms.ErrorsOfSpec | src/pages/SignUp.tsx:12-22 | with distinct fields, a field has an error iff its check fails, the error is that check's message, there are no errors iff every check passes, and only guarded fields can have errors |
| Forms.RoleCheck | src/pages/SignUp.tsx:19-21 | the role passes iff it is 'student' or 'teacher'; otherwise the error is zod's enum message naming the value received |
| Forms.FormRole | src/pages/SignUp.tsx:52-58 | a validated role names the same role and is never admin |
| Forms.OrElse | src/pages/SignUp.tsx:65 | the error text when it is not empty, the fallback otherwise |
| SignUpPage.FieldErrorsSpec | src/pages/SignUp.tsx:13-22 | full name and school name need 2 characters, the password 6, the email must have email shape, the role must be student or teacher and the terms must be accepted, each with its message; the grade is optional |
| SignUpPage.SignUpErrorsSpec | src/pages/SignUp.tsx:12-26 | each field rule puts its own message on its own field; "Passwords don't match" is on confirmPassword iff the role is student or teacher and the two passwords differ, even when other field rules fail, because only an invalid role makes zod skip the object refinement; the form has no errors iff every rule passes and the passwords agree |
| SignUpPage.Request | src/pages/SignUp.tsx:52-59 | the sign-up request carries the form's name, email, password, school, grade and role |
| SignUpPage.SignUp.Submit | src/pages/SignUp.tsx:48-70 | a rejected form only shows its errors; an accepted one clears the banner, then a duplicate email or a hashing failure shows that error and leaves the users and cookies as they were, and success appends the new account, writes its token and stored text into the two session cookies, refreshes the user to it and navigates to '/profile' |
| LoginPage.LoginErrorsSpec | src/pages/Login.tsx:12-15 | the email must have email shape and the password needs 6 characters, each with its message; the form has no errors iff both hold |
| LoginPage.Landing | src/pages/Login.tsx:41 | the admin role lands on '/admin' and every other role on '/profile' |
| LoginPage.Login.Submit | src/pages/Login.tsx:33-48 | a rejected form only shows its errors; an accepted one clears the banner, then an unknown email shows 'Invalid email or password' and leaves the cookies as they were, and a known one writes the token and the first matching user's stored text into the two session cookies, refreshes the user and navigates by role |
| LoginPage.AnyLongPasswordAccepted | src/pages/Login.tsx:12-15 | any password of 6 or more characters with a well-shaped email passes the schema |
| RegisterPage.ApplicantErrors | src/pages/Register.tsx:11-17 | full name and school name need 2 characters, the email must have email shape and the role must be student or teacher, each with its message |
| RegisterPage.ContactDetailErrors | src/pages/Register.tsx:18-23 | the phone and the emergency phone need 10 characters, the emergency contact 2, and the terms must be accepted, each with its message |
| RegisterPage.RegisterErrorsSpec | src/pages/Register.tsx:10-24 | grade, dietary restrictions and special needs never have an error; the form has no errors iff every rule passes |
| RegisterPage.Register.Submit | src/pages/Register.tsx:43-59 | a rejected form changes nothing in the store; an accepted one appends exactly one pending record and marks the page submitted; isSubmitting ends false |
| ContactPage.ContactErrorsSpec | src/pages/Contact.tsx:9-15 | name needs 2 characters, subject 5, message 10, the email must have email shape, each with its message; the school is optional; no errors iff all hold |
| ContactPage.Contact.Edit | src/pages/Contact.tsx:111-166 | typing replaces the form values and leaves the shown errors as they were |
| ContactPage.Contact.Submit | src/pages/Contact.tsx:29-35 | a valid message resets the form to its first state; an invalid one keeps the values and shows the errors; the page holds no store to change |
| RegistrationPage.DelegatesCheck | src/pages/Registration.tsx:16 | the delegate count passes iff it lies in 1..50, with the lower bound's message below 1 and the upper bound's above 50 |
| RegistrationPage.SchoolDetailErrors | src/pages/Registration.tsx:11-15 | school name and coordinator name need 2 characters, the address 5, the phone 10, and the coordinator email must have email shape, each with its message |
| RegistrationPage.DelegationErrors | src/pages/Registration.tsx:16-19 | the delegate count must lie in 1..50, at least three committees must be chosen, and the terms must be accepted, each with its message |
| RegistrationPage.SchoolErrorsSpec | src/pages/Registration.tsx:10-20 | the special requirements never have an error; the form has no errors iff every rule passes |
| RegistrationPage.DefaultsSpec | src/pages/Registration.tsx:36-39 | the defaults are five delegates and no preferences; the count passes and the empty preference list fails its minimum |
| RegistrationPage.Rank | src/pages/Registration.tsx:269 | the badge number is a position, counted from 1, at which the committee sits in the preference list |
| RegistrationPage.RankIsSelectionOrder | src/pages/Registration.tsx:337-343 | in a list without duplicates the i-th chosen committee is ranked i + 1 |
| RegistrationPage.MinimumMetSpec | src/pages/Registration.tsx:293 | 'Minimum requirement met' is shown iff the schema raises no preference error |
| RegistrationPage.SelectedLabel | src/pages/Registration.tsx:292 | the label is 'Selected: ', then the number of chosen committees in decimal (reading back as that number), then ' committee' with a trailing 's' iff the number is not 1 |
| RegistrationPage.MinimumMeansAllCommittees | src/pages/Registration.tsx:17 | with the three fixture committees, a duplicate-free list meeting the minimum holds all three |
| RegistrationPage.SchoolRegistration.constructor | src/pages/Registration.tsx:25-39 | the wizard starts on step 1 with the default values and no errors |
| RegistrationPage.SchoolRegistration.NextStep | src/pages/Registration.tsx:64 | the step grows by one up to 3 and stays at 3; nothing else changes |
| RegistrationPage.SchoolRegistration.PrevStep | src/pages/Registration.tsx:65 | the step shrinks by one down to 1 and stays at 1; nothing else changes |
| RegistrationPage.SchoolRegistration.Edit | src/pages/Registration.tsx:142-366 | typing replaces every form value except the committee choices, keeps the choice list free of duplicates, and changes neither the step nor the errors |
| RegistrationPage.SchoolRegistration.TogglePreference | src/pages/Registration.tsx:56-62 | a chosen id is removed and an unchosen one is appended; the list stays free of duplicates |
| RegistrationPage.SchoolRegistration.Submit | src/pages/Registration.tsx:44-49 | the errors are the schema's errors, none iff the form passes; the values are unchanged |
| RegistrationPage.TogglesStayDistinct | src/pages/Registration.tsx:38 | starting from the empty default, any sequence of toggles leaves a list without duplicates |
| Seqs.ToggleMembership | src/pages/Registration.tsx:56-62 | toggling flips the membership of the toggled id and of no other id |
| Seqs.CountDisjoint3 | src/pages/Admin/AdminDashboard.tsx:193-205 | three tests that no element passes two of at once count at most the whole list between them |
| Seqs.ToggleTwice | src/pages/FAQ.tsx:22-28 | toggling the same id twice restores the list iff the id was absent or already last; otherwise the id moves to the end |
| DelegatesPage.FilteredSpec | src/pages/Dashboard/Delegates.tsx:81-86 | a delegate is listed iff it is on the roster, its name or email contains the term ignoring case, and the grade filter is empty or equal; the list keeps roster order |
| DelegatesPage.FilteredNoFilter | src/pages/Dashboard/Delegates.tsx:81-86 | with no search and no grade the whole roster is listed |
| DelegatesPage.FromDraft | src/pages/Dashboard/Delegates.tsx:90-99 | the new delegate has the form's name, email and grade, is a minor only when the box was ticked, and has no committee or country |
| DelegatesPage.MergeSpec | src/pages/Dashboard/Delegates.tsx:117 | a merge overrides exactly the fields the patch holds, keeps the others, and is idempotent; an empty patch changes nothing |
| DelegatesPage.EditAll | src/pages/Dashboard/Delegates.tsx:117 | the roster keeps its length and order; records with the id are merged, all others kept |
| DelegatesPage.RemoveIdSpec | src/pages/Dashboard/Delegates.tsx:124 | deletion drops every record with the id and keeps every other record, with its multiplicity, in order |
| DelegatesPage.CommitteeName | src/pages/Dashboard/Delegates.tsx:128-132 | a missing or empty id gives 'Not assigned', an id no committee has gives 'Unknown Committee', otherwise the first matching committee's name, or 'Unknown Committee' when that name is empty |
| DelegatesPage.CommitteeNamesOfFixtures | src/pages/Dashboard/Delegates.tsx:128-132 | with the fixture committees, ids '1' and '3' name their committees and any other non-empty id is unknown |
| DelegatesPage.StatsBounded | src/pages/Dashboard/Delegates.tsx:170-211 | the assigned, minors and with-email cards each count at most the total |
| DelegatesPage.Delegates.constructor | src/pages/Dashboard/Delegates.tsx:33-79 | the page starts with the three seed delegates, the form closed and reset, and no filters |
| DelegatesPage.Delegates.SetSearchTerm | src/pages/Dashboard/Delegates.tsx:230 | the search term becomes the typed text; the roster, the form and the other filter are unchanged |
| DelegatesPage.Delegates.SetFilterGrade | src/pages/Dashboard/Delegates.tsx:240 | the grade filter becomes the chosen grade; the roster, the form and the search are unchanged |
| DelegatesPage.Delegates.OpenAdd | src/pages/Dashboard/Delegates.tsx:152 | the add form opens and nothing else changes |
| DelegatesPage.Delegates.CloseAdd | src/pages/Dashboard/Delegates.tsx:276 | the add form closes, keeps what was typed, and nothing else changes |
| DelegatesPage.Delegates.EditDraft | src/pages/Dashboard/Delegates.tsx:292-377 | the form holds the typed values; the roster and the filters are unchanged |
| DelegatesPage.Delegates.StartEditing | src/pages/Dashboard/Delegates.tsx:489 | the row with the id is marked as being edited; nothing else changes |
| DelegatesPage.Delegates.AddDelegate | src/pages/Dashboard/Delegates.tsx:88-113 | an incomplete form changes nothing and stays open; a complete one appends exactly one delegate, resets the form and closes it |
| DelegatesPage.Delegates.EditDelegate | src/pages/Dashboard/Delegates.tsx:115-120 | the roster becomes the merged roster and editing ends |
| DelegatesPage.Delegates.DeleteDelegate | src/pages/Dashboard/Delegates.tsx:122-126 | a confirmed delete removes the records with the id; a declined one changes nothing |
| FaqPage.FilteredSpec | src/pages/FAQ.tsx:14-20 | an entry is listed iff its question, answer or a tag contains the term ignoring case and the category is '', 'All' or its own; the list keeps order |
| FaqPage.FilteredNoFilter | src/pages/FAQ.tsx:14-20 | with no search and category '' or 'All', every entry is listed in order |
| FaqPage.ShownTags | src/pages/FAQ.tsx:157-164 | the strip shows the first min(2, n) tags |
| FaqPage.MoreTags | src/pages/FAQ.tsx:165-169 | '+k more' has k = n - 2 when there are more than two tags and is absent otherwise; shown plus more is n |
| FaqPage.Faq.ToggleExpanded | src/pages/FAQ.tsx:22-28 | the id is removed when open and appended when closed; no other id changes |
| FaqPage.Faq.ExpandAll | src/pages/FAQ.tsx:30-32 | the open list becomes exactly the ids of the listed entries, in listed order |
| FaqPage.Faq.CollapseAll | src/pages/FAQ.tsx:34-36 | the open list becomes empty |
| FaqPage.ExpandAllFixtures | src/pages/FAQ.tsx:30-32 | with no filter, expand-all opens the three fixture answers, all distinct |
| Text.FoundLabel | src/pages/Committees.tsx:77 | the "N noun(s) found" label of the committee, resource, document, announcement and FAQ pages starts with the count in decimal, which reads back as the count, and the noun is plural iff the count is not 1 |
| CommitteesPage.FilteredSpec | src/pages/Committees.tsx:11-22 | a committee is listed iff its name, description or a topic area contains the term ignoring case and the grade is empty or eligible; the list keeps order |
| CommitteesPage.FilteredNoFilter | src/pages/Committees.tsx:11-22 | with no filters all fixture committees are listed in order |
| CommitteesPage.NinthGradeExcludesEcosoc | src/pages/Committees.tsx:18-19 | grade 9 lists the Security Council and the General Assembly and not ECOSOC |
| ResourcesPage.OptionValue | src/pages/Resources.tsx:166 | the 'All' option carries '' and every other option its own name |
| ResourcesPage.FilteredSpec | src/pages/Resources.tsx:75-80 | a resource is listed iff its title or description contains the term ignoring case and the category is '', 'All' or its own; the list keeps order |
| ResourcesPage.AllOptionKeepsAll | src/pages/Resources.tsx:10-80 | with no search and the 'All' option all six resources are listed in order |
| ResourcesPage.FeaturedSpec | src/pages/Resources.tsx:198 | a resource is featured-listed iff it is marked featured, whatever the filters; in the fixture those are the first two |
| DocumentsPage.FilteredSpec | src/pages/Dashboard/Documents.tsx:102-107 | a document is listed iff its title or description contains the term ignoring case and the type is '' or its own; the list keeps order |
| DocumentsPage.StatsBounded | src/pages/Dashboard/Documents.tsx:136-161 | available plus pending never exceeds the total, nor do the certificates |
| DocumentsPage.FixtureStats | src/pages/Dashboard/Documents.tsx:31-92 | the fixture has six documents, four available, two pending and two certificates |
| DocumentsPage.StatusLabel | src/pages/Dashboard/Documents.tsx:273 | the first character is upper-cased and the rest kept |
| DocumentsPage.TypeLabel | src/pages/Dashboard/Documents.tsx:276 | only the first '_' becomes a space, then the first character is upper-cased |
| DocumentsPage.AvailableLabel | src/pages/Dashboard/Documents.tsx:273 | 'available' is shown as 'Available' |
| DocumentsPage.StudyGuideLabel | src/pages/Dashboard/Documents.tsx:276 | 'study_guide' is shown as 'Study guide' |
| DocumentsPage.DocumentIcon | src/pages/Dashboard/Documents.tsx:109-116 | certificate gives Award, study guide gives BookOpen, and every other type FileText |
| DocumentsPage.DocumentColor | src/pages/Dashboard/Documents.tsx:118-125 | the three known types get blue, accent and green; any other type the neutral colour |
| DocumentsPage.StatusColor | src/pages/Dashboard/Documents.tsx:127-134 | available, pending and processing get green, accent and blue; any other status the neutral colour |
| DocumentsPage.ActionsFor | src/pages/Dashboard/Documents.tsx:295-317 | download and preview iff available, the after-conference note iff pending, the processing note otherwise |
| AnnouncementsPage.FilteredSpec | src/pages/Announcements.tsx:63-69 | a notice is listed iff its title or content contains the term ignoring case and the priority is '', 'All' or its own up to case; the list keeps order |
| AnnouncementsPage.MatchesHigh | src/pages/Announcements.tsx:66-67 | with no search, 'High' keeps a notice of a known priority iff its priority is 'high' |
| AnnouncementsPage.HighKeepsFirstAndFourth | src/pages/Announcements.tsx:63-69 | over any six notices ranked high, medium, low, high, low, medium, choosing 'High' lists exactly the first and the fourth, in that order |
| AnnouncementsPage.HighKeepsHigh | src/pages/Announcements.tsx:10-69 | choosing 'High' lists exactly the first and fourth notices, the two of priority 'high', in order |
| AnnouncementsPage.PriorityIgnoresCase | src/pages/Announcements.tsx:66-67 | upper-casing a priority choice other than 'All' keeps the same notices |
| AnnouncementsPage.PriorityIcon | src/pages/Announcements.tsx:71-78 | high gives AlertCircle, low CheckCircle, and medium or anything else Info |
| AnnouncementsPage.PriorityColor | src/pages/Announcements.tsx:80-87 | high, medium and low get red, accent and green; any other priority the neutral colour |
| AnnouncementsPage.PriorityBadge | src/pages/Announcements.tsx:199 | the badge has the priority's length, no lower-case letter, and the same letters up to case |
| AdminDashboard.RecentSpec | src/pages/Admin/AdminDashboard.tsx:41 | the recent list has min(5, n) entries: the last ones, newest first |
| AdminDashboard.EmptyStateSpec | src/pages/Admin/AdminDashboard.tsx:103 | 'No registrations yet' is shown iff there are no registrations |
| AdminDashboard.StatusCountsBounded | src/pages/Admin/AdminDashboard.tsx:193-205 | the confirmed, pending and cancelled counts are each at most n, and so are confirmed plus pending and the sum of all three, because no registration has two statuses |
| AdminDashboard.AllPendingCounts | src/pages/Admin/AdminDashboard.tsx:193-205 | when every registration is pending, pending is n and confirmed and cancelled are 0 |
| AdminDashboard.StoreIsAllPending | src/lib/auth.ts:125 | for the store's registrations the pending count is the total and the confirmed count 0 |
| AdminDashboard.CapacityLabel | src/pages/Admin/AdminDashboard.tsx:35 | the capacity card is the decimal count, which reads back as n, followed by '/500' |
| AdminDashboard.SpotsRemaining | src/pages/Admin/AdminDashboard.tsx:233 | spots plus n is 500, and spots are negative iff more than 500 have registered |
| AdminDashboard.BadgeColor | src/pages/Admin/AdminDashboard.tsx:137-141 | confirmed is green, pending accent, and anything else red |

## Left out

- Password hashing: bcrypt is a foreign library, and the site discards the hash. Its only effect modelled is the `hashFails` flag, the one way into sign-up's catch.
- The Supabase client in src/lib/supabase.ts is never used. Its mock committees and FAQs are the fixtures.
- Cookie expiry and the js-cookie library are not modelled. The cookies are a map without time.
- `JSON.stringify`/`JSON.parse` are modelled only for the user record:
  - members appear in declaration order, and an absent grade is omitted;
  - only `"` and `\` are escaped in string values.
- Malformed `user_data`, which would make `JSON.parse` throw: `AuthStore.Valid` rules it out and the model makes no claim about it.
- `Math.random`, `Date.now` and `new Date()` become parameters.
- The `toLocaleDateString` formatting is not modelled: it is an opaque function parameter.
- The Blob, object-URL and anchor download of the CSV is left out.
- Case folding is ASCII. Unicode `toLowerCase`/`toUpperCase` is not modelled.
- The zod email regex is the parameter `isEmail`.
- The order in which zod aggregates errors is not modelled.
- `SignUpPage.SignUpErrors`: zod would also skip the password refinement when a field is not a string at all. The form always submits strings, so that case is not modelled.
- `Forms.RoleCheck`: the role select always submits a string, '' until a role is chosen, so zod reports its own enum message. The `required_error` text 'Please select your role' is never shown and is not modelled.
- `SignUpPage.SignUp.Submit`: signUp never throws, so the 'An unexpected error occurred' catch in src/pages/SignUp.tsx:67-69 cannot run and is not modelled.
- `LoginPage.Login.Submit`: signIn never throws, so the same catch in src/pages/Login.tsx:45-47 cannot run and is not modelled. The 'Login failed' catch inside signIn (src/lib/auth.ts:108-110) cannot run either.
- `RegisterPage.Register.Submit`: addRegistration never throws, so the catch branch, which would leave isSubmitted false, is not modelled. The two-second delay and `console.error` are also left out.
- Timers, `alert`, `console.log`, the draft-saving indicator and the simulated API delays are not modelled.
- `DelegatesPage.Merge`: a patch field that is absent keeps the old value. The JavaScript case of a key present with the value `undefined` is not modelled.
- `handleEditDelegate` is never called by the page's own markup. It is modelled all the same as `DelegatesPage.Delegates.EditDelegate`.
- Unused fields are left out:
  - the uploadDate, size and downloadUrl of documents;
  - the createdAt of announcements;
  - the display-only fields of resources.
- Routing uses exact paths. React Router's case-insensitive and trailing-slash matching is left out.
- `numberOfDelegates` is an integer. The `valueAsNumber` parse of an empty input, NaN, is not modelled.
- Floating-point percentages are not modelled: the dashboard's rounded progress figure and the capped bar width.
- Presentational files are left out because they are static content: Home, About, EventDetails, Profile, Dashboard/Dashboard.tsx, Navbar, Footer, Layout and AnnouncementBanner. The same goes for animation, JSX rendering and React's effect scheduling.
- src/pages/Dashboard/MyRegistration.tsx is not part of this model. It holds only a constant status colour lookup and an edit toggle, and its cancel handler does not restore the data its comment promises.
