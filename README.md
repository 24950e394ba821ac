# Travel Package Booking System: a verified model

The Travel Package Booking System is a travel-booking platform. Customers browse packages, sign up and sign in, book a trip, pay by card, review the packages they booked and ask for assistance. Agents publish packages and answer reviews. Administrators approve agents and look after users, bookings and requests.

The platform has two halves:

- a React single-page client;
- Spring microservices behind an API gateway, one per bounded context:
  - users;
  - packages;
  - bookings;
  - payments;
  - reviews;
  - insurance;
  - assistance.

This project models both halves in Dafny. One module stands for each source file, plus `Common` (shared vocabulary), `Table` (the repository view the services share) and `Http` (the controllers' answers and the replies of remote calls).

## Client

- **Session** (`AuthSession`): the session store and its two browser-storage keys.
- **HTTP layer** (`ApiClient`):
  - it attaches the bearer token and tears the session down on a 401;
  - it turns every failure into one result shape.
- **Loaders** (`DashboardData`): the dashboard loaders, over the bodies the backend answers. Those bodies arrive wrapped as `{data, success}`, and `Body` keeps that shape.
- **Route guard** (`AppRoutes`): the route table, matched ignoring ASCII case and trailing slashes, and the role guard.
- **Header** (`Header`).
- **Sign-in and registration rules** (`SignInPage`, `SignUpPage`).
- **Booking and card forms** (`BookingForm`, `CardForm`). They are shared by the customer dashboard and the packages page.
- **Workflows of the pages**:
  - `UserDashboard`;
  - `PackagesPage`;
  - `ReviewsPage`;
  - `AssistancePage`;
  - `ProfilePage`;
  - `AdminDashboard`.
- **Field readings** (`ClientRecords`): the two-spelling field readings (`role || Role`) the pages rely on.
- **Sort** (`StableSort`): the comparator sort, with its ordering and permutation proved.

JavaScript's `||`, truthiness and `trim` are written out explicitly in `Common`.

## Services

Each service is a class. Its rows live in `rows: map<int, Record>` with a growing `nextId`, and each row carries its own key (`Valid()`). The methods state the whole new state and what they answer. The lemmas beside them state the laws of the pure parts.

- **What is modelled on the Java side**:
  - defaults;
  - partial overwrites;
  - status machines;
  - enrichment from other services through their replies;
  - the field checks;
  - the token and ownership gates of the controllers.
  
  The laws include idempotent updates, refund only after completion, renewal that always extends, and the quotes ordering.
- **How Java failures appear**:
  - A Java exception the service raises on purpose is an `Err`.
  - An exception no handler catches becomes Spring's default 500 answer (`Crashed`).
- **Gateway** (`Gateway`): its authentication filter is modelled over header lists. It proves that a forwarded request carries exactly the token's identity headers, whatever the client sent.
- **Inputs supplied by the caller** (they become function parameters):
  - clocks;
  - the replies of remote services;
  - token validation and claim extraction;
  - the password encoder.
- **Money**: all amounts are in integer cents.

## Model

| member | source | states |
|---|---|---|
| Common.DigitsOf | Frontend/src/pages/UserDashboard.jsx:279 | dropping the non-digits leaves only digits and never lengthens the text |
| Common.DigitsOfAppend | Frontend/src/pages/UserDashboard.jsx:273 | dropping non-digits from joined texts is the same as dropping them from each part |
| Common.DigitsOfDigits | Frontend/src/pages/UserDashboard.jsx:273-274 | text made only of digits passes through unchanged |
| Common.JsBlankIffAllSpace | Frontend/src/pages/Reviews.jsx:68 | JavaScript `trim` leaves nothing exactly when every character is white space |
| Common.JavaTrim | Backend/review-service/src/main/java/com/tpbs/reviewservice/controller/ReviewController.java:80 | Java `trim` never lengthens the text, and what it leaves starts and ends above U+0020 |
| Common.JavaTrimIsSlice | Backend/review-service/src/main/java/com/tpbs/reviewservice/controller/ReviewController.java:80 | the trimmed text is one slice of the original, and everything cut off in front and behind is at most U+0020 |
| Common.JavaTrimEmptyIff | Backend/review-service/src/main/java/com/tpbs/reviewservice/controller/ReviewController.java:80 | `trim().isEmpty()` holds exactly when every character is at most U+0020 |
| Common.Utf16Length | Frontend/src/pages/SignUp.jsx:77-80 | a text's JavaScript length lies between its character count and twice that, and equals the character count when no character lies beyond U+FFFF |
| Common.Utf16LengthOfAstral | Frontend/src/pages/SignUp.jsx:77-80 | three emoji are six code units long |
| Common.ParseLong | Backend/user-service/src/main/java/com/tpbs/userservice/controller/UserController.java:183 | the parse succeeds exactly on an optional sign followed by one or more ASCII digits |
| Common.ParseLongOfIntToString | Backend/user-service/src/main/java/com/tpbs/userservice/controller/UserController.java:183 | parsing the decimal text of a number gives that number back |
| Common.MapAll | Backend/review-service/src/main/java/com/tpbs/reviewservice/service/impl/ReviewServiceImpl.java:130 | a stream map succeeds exactly when every step does, and then gives each step's result in order; otherwise it fails with the first failing step's error |
| Common.UpdateWhere | Frontend/src/pages/AdminDashboard.jsx:539-543 | the matching elements are replaced, and every other element keeps its place and value |
| Table.Listing | Backend/booking-service/src/main/java/com/tpbs/bookingservice/service/impl/BookingServiceImpl.java:31 | `findAll` lists exactly the stored rows, each once and in ascending key order, so there are never more rows than ids used |
| Table.ListingFilter | Backend/review-service/src/main/java/com/tpbs/reviewservice/service/impl/ReviewServiceImpl.java:130 | filtering the listing keeps exactly the rows that satisfy the filter, in key order |
| Table.SaveKey | Backend/booking-service/src/main/java/com/tpbs/bookingservice/service/impl/BookingServiceImpl.java:81 | `save` writes to the entity's own id when a row holds it, and to a fresh id otherwise |
| Http.NumberOrNull | Backend/assistance-service/src/main/java/com/tpbs/assistanceservice/service/impl/AssistanceRequestServiceImpl.java:108 | the `(Number)` cast gives the number, gives nothing for null, and fails for anything else |
| Http.StringOrNull | Backend/assistance-service/src/main/java/com/tpbs/assistanceservice/service/impl/AssistanceRequestServiceImpl.java:111 | the `(String)` cast gives the string, gives nothing for null, and fails for anything else |
| AuthSession.BrowserStorage.constructor | Frontend/src/contexts/AuthContext.jsx:20 | the browser storage holds the saved user record and the token under their two keys |
| AuthSession.WithToken | Frontend/src/contexts/AuthContext.jsx:40-43 | the stored user is the reply's user with only the token field replaced by the reply's token |
| AuthSession.StoredToken | Frontend/src/contexts/AuthContext.jsx:48 | storage always receives some text, and a present token is stored unchanged |
| AuthSession.SignedUpMessage | Frontend/src/contexts/AuthContext.jsx:96 | a registration without sign-in always reports a non-empty message, the server's own when it sent one |
| AuthSession.RegisterPayload | Frontend/src/contexts/AuthContext.jsx:66-72 | the register body carries the form's name, e-mail, password and role, and '' for a missing contact number |
| AuthSession.OnlyCustomersAutoLogin | Frontend/src/contexts/AuthContext.jsx:82 | registering signs in only a customer whose reply has a token; any other role is never signed in |
| AuthSession.Session.constructor | Frontend/src/contexts/AuthContext.jsx:15-26 | start-up restores a saved user and is authenticated exactly when one was saved |
| AuthSession.Session.Login | Frontend/src/contexts/AuthContext.jsx:28-59 | a successful login stores the user with its token in the session and in storage; a failure leaves the session as it was and reports the server's error or the default text |
| AuthSession.Session.Register | Frontend/src/contexts/AuthContext.jsx:61-106 | only an auto-login changes the session; other successes report the message and leave the session; a failure reports the error |
| AuthSession.Session.Logout | Frontend/src/contexts/AuthContext.jsx:108-120 | logging out always clears the user, the flag and both storage keys |
| AuthSession.Session.UpdateUser | Frontend/src/contexts/AuthContext.jsx:122-137 | the given record replaces the user but keeps the previous token, and storage follows; the flag and token key are untouched |
| AuthSession.Session.RefreshUserData | Frontend/src/contexts/AuthContext.jsx:140-159 | a successful refresh replaces the user keeping the token; a failed one changes nothing |
| ApiClient.RequestConfig.constructor | Frontend/src/services/apiClient.js:7-13 | a request configuration starts with the headers it is given |
| ApiClient.WithAuth | Frontend/src/services/apiClient.js:16-23 | with a non-empty stored token the Authorization header is "Bearer " followed by the token and every other header is kept; otherwise the headers are unchanged |
| ApiClient.AttachToken | Frontend/src/services/apiClient.js:16-23 | the request interceptor leaves the headers equal to WithAuth of the old headers and the stored token |
| ApiClient.ErrorMessage | Frontend/src/services/apiClient.js:53-71 | the error text is the server's message, then its error, then "Server Error" with the status; the connection text when no answer came; the timeout text for ECONNABORTED; the error's own message or "Request failed" otherwise |
| ApiClient.FailureOf | Frontend/src/services/apiClient.js:73-78 | every failed call resolves to a failure carrying ErrorMessage and the response status, when there is one |
| ApiClient.OnError | Frontend/src/services/apiClient.js:36-79 | a 401 from any url except the login call removes both storage keys and redirects unless already on a sign-in page; in every other case storage is unchanged; the result is FailureOf |
| ApiClient.LoginFailureKeepsSession | Frontend/src/services/apiClient.js:44 | a 401 from the login call neither clears storage nor redirects |
| ApiClient.RequestMethod | Frontend/src/services/apiClient.js:86-92 | the method sent is "GET" when none is given, and otherwise the given one, because the options spread overrides the default |
| ApiClient.ApiRequest | Frontend/src/services/apiClient.js:83-106 | a resolved result is passed on unchanged; a thrown error becomes a failure keeping its details and status and, when present, its error text |
| DashboardData.ListOr | Frontend/src/services/index.js:45-47 | a successful call gives its body exactly as it came, with the backend's `{data, success}` wrapper left in place, and a failed one the empty list |
| DashboardData.UserDashboardData | Frontend/src/services/index.js:34-53 | unless an exception escapes, the user loader succeeds with each entry the body of its own call as it came (still wrapped) or empty; an escaping exception fails with its message |
| DashboardData.UserListsIndependent | Frontend/src/services/index.js:45-47 | the failure of one call does not affect the list taken from another |
| DashboardData.UserDataStillWrapped | Frontend/src/services/index.js:45-47 | against the backend's wrapped answers each loaded entry is still a wrapper, and unwrapping it one level gives the list the backend sent, or the empty list for a failed call |
| DashboardData.PackageIds | Frontend/src/services/index.js:73 | the ids are the agent's packages' ids, in order |
| DashboardData.AgentLists | Frontend/src/services/index.js:72-83 | given the three lists, the packages are kept, exactly the bookings on one of the packages' ids are kept, and exactly the payments of those bookings |
| DashboardData.ArrayOf | Frontend/src/services/index.js:72-81 | a failed call gives the empty array; a successful one gives its body when that body is an array, and otherwise nothing, standing for the TypeError `.map` or `.filter` throws on it |
| DashboardData.AgentFallbackAsWritten | Frontend/src/services/index.js:66-92 | the fallback as written loads exactly when each of the three bodies is an array or its call failed, and then with the filtered lists; otherwise the loader fails with the TypeError's message |
| DashboardData.WrappedFallbackFails | Frontend/src/services/index.js:72-81 | against the backend's wrapped answers the fallback as written loads exactly when all three calls failed, and then shows three empty lists; one successful call makes it fail |
| DashboardData.AgentFallback | Frontend/src/services/index.js:66-92 | the corrected fallback unwraps each body one level, keeps the agent's packages, exactly the bookings on one of them and exactly the payments of those bookings |
| DashboardData.FallbackAgreesOnBareLists | Frontend/src/services/index.js:66-92 | on bare array bodies the fallback as written loads with exactly the corrected fallback's lists |
| DashboardData.AgentDashboardDataAsWritten | Frontend/src/services/index.js:54-97 | an escaping exception fails with its message; otherwise the dedicated endpoint's body is used as it came when it succeeds, and the fallback as written otherwise, whose failure becomes the loader's |
| DashboardData.AgentDashboardData | Frontend/src/services/index.js:54-97 | the corrected loader: an escaping exception fails with its message; otherwise the dedicated endpoint's body as it came when it succeeds, and the corrected fallback's lists otherwise, so it never fails on a body's shape |
| DashboardData.AgentLoaderDiffers | Frontend/src/services/index.js:72-81 | with the dedicated endpoint failing and the agent's packages answered wrapped, the loader as written fails with the TypeError while the corrected one shows the agent's filtered lists |
| DashboardData.FallbackStaysWithAgent | Frontend/src/services/index.js:78-83 | in the corrected fallback every payment shown belongs to a booking shown, and every booking shown is on one of the agent's packages |
| DashboardData.NoPackagesNothingShown | Frontend/src/services/index.js:72-83 | when the agent's packages unwrap to none, the corrected fallback shows no bookings and no payments |
| DashboardData.AdminDashboardData | Frontend/src/services/index.js:99-122 | the admin loader succeeds even when every call failed, with each of the five entries the body of its own call as it came (still wrapped) or empty |
| AppRoutes.Protected | Frontend/src/App.jsx:21-36 | a visitor who is not signed in goes to /signin; with an allowed list the view is shown exactly when the user's role (either spelling) is in it, and otherwise the visitor goes to /; with no list any signed-in session sees the view |
| AppRoutes.DropTrailingSlashes | Frontend/src/App.jsx:80-119 | the path loses only trailing slashes, ends in no slash unless it is a single one, and a non-empty path stays non-empty |
| AppRoutes.LowerCase | Frontend/src/App.jsx:80-119 | every ASCII capital becomes its small letter and every other character stays in its place |
| AppRoutes.Route | Frontend/src/App.jsx:80-119 | comparing the path with the table ignoring ASCII case and trailing slashes: a path outside the table redirects to /, a public page is always shown, a guarded one sends a visitor who is not signed in to /signin, and /profile takes the guard with no role list |
| AppRoutes.MainContent | Frontend/src/App.jsx:47-121 | the spinner while loading, the error page for a non-empty error, and the routed view exactly when neither holds |
| AppRoutes.GuardedNeedsSignIn | Frontend/src/App.jsx:87-118 | every path that names a guarded route, ignoring ASCII case and trailing slashes, sends a visitor who is not signed in to /signin |
| AppRoutes.KeyOfPattern | Frontend/src/App.jsx:81-119 | a path with no capital and no trailing slash, as each pattern of the table is, is compared as it stands |
| AppRoutes.DashboardsAdmitOneRole | Frontend/src/App.jsx:87-110 | each dashboard is shown exactly to its one role: customer, agent or admin |
| AppRoutes.ProfileAdmitsAnyone | Frontend/src/App.jsx:111-118 | /profile is shown to any signed-in session |
| AppRoutes.LowerCaseDropsSameSlashes | Frontend/src/App.jsx:80-119 | lowering the case and dropping trailing slashes can be done in either order |
| AppRoutes.CaseIgnored | Frontend/src/App.jsx:80-119 | two paths that differ only in ASCII case are routed the same way |
| AppRoutes.TrailingSlashIgnored | Frontend/src/App.jsx:80-119 | adding a trailing slash to a non-empty path never changes its route |
| AppRoutes.VariantPathsGuarded | Frontend/src/App.jsx:87-118 | "/Profile" and "/user-dashboard/" are guarded: a visitor who is not signed in goes to /signin, not home |
| AppRoutes.UnknownPathsGoHome | Frontend/src/App.jsx:119 | any path outside the table, ignoring ASCII case and trailing slashes, redirects to / |
| AppRoutes.ApprovalNeverConsulted | Frontend/src/App.jsx:28-33 | the approval fields never change what a route renders |
| Header.UserName | Frontend/src/components/Header.jsx:19-23 | "Guest" without a user; otherwise the first non-empty of name, Name and e-mail, else "User"; never empty |
| Header.UserRole | Frontend/src/components/Header.jsx:25-29 | "guest" without a user; otherwise the role in either spelling when non-empty, else "customer" |
| Header.ApprovalStatus | Frontend/src/components/Header.jsx:31-35 | no approval status without a user; otherwise the lower-case approval when it is a non-empty string, else the capitalised Approval as it stands |
| Header.DashboardLink | Frontend/src/components/Header.jsx:47-65 | no link exactly when there is no user or the user is a pending agent; the admin link iff the role is admin; the agent link iff an agent who is not pending; every other role gets the customer dashboard |
| Header.DashboardLabel | Frontend/src/components/Header.jsx:67-82 | the label of each of the three roles, and "Dashboard" without a user or for any other role |
| Header.MenuItems | Frontend/src/components/Header.jsx:134-164 | the drop-down always ends with Profile and Logout, led by the dashboard link when there is one and by the pending notice for a pending agent |
| Header.Menu.constructor | Frontend/src/components/Header.jsx:9 | the drop-down starts closed |
| Header.Menu.Toggle | Frontend/src/components/Header.jsx:121 | the trigger flips the drop-down |
| Header.Menu.ClickOutside | Frontend/src/components/Header.jsx:85-99 | a mouse-down outside closes the drop-down; one inside leaves it as it was |
| Header.Menu.Logout | Frontend/src/components/Header.jsx:41-45 | logging out signs the session out, clears both storage keys, goes to / and closes the drop-down |
| Header.RoleLessLinkBounces | Frontend/src/components/Header.jsx:28 | a user with no role is linked to the customer dashboard, which the route guard then refuses |
| Header.PendingAgentNotGuarded | Frontend/src/components/Header.jsx:50-51 | a pending agent gets no link, yet the route guard still shows the agent dashboard at its path |
| Header.LinkAgreesWithGuard | Frontend/src/components/Header.jsx:55-64 | for an admin, agent or customer who is not pending, the linked dashboard is one the route guard shows |
| SignInPage.DomainShape | Frontend/src/pages/SignIn.jsx:167 | a domain that matches the pattern contains no '@' and ends with a letter |
| SignInPage.EmailShape | Frontend/src/pages/SignIn.jsx:167 | a matching address has exactly one '@', the one the pattern splits at, and ends with a letter |
| SignInPage.ShortTopLevelRejected | Frontend/src/pages/SignIn.jsx:167 | a one-letter top-level name does not match |
| SignInPage.TypicalAddressAccepted | Frontend/src/pages/SignIn.jsx:167 | a usual mixed-case address with dotted names matches |
| SignInPage.EmailError | Frontend/src/pages/SignIn.jsx:165-169 | an e-mail is accepted exactly when it matches the pattern, and an empty one is "required" |
| SignInPage.SignInPasswordError | Frontend/src/pages/SignIn.jsx:187-191 | a password is accepted exactly when it has at least 6 UTF-16 code units; an empty one is reported as required |
| SignInPage.LandingFor | Frontend/src/pages/SignIn.jsx:53-65 | admin and agent have their own dashboards and every other role lands on the customer dashboard |
| SignInPage.AfterSignIn | Frontend/src/pages/SignIn.jsx:38-70 | a failure shows the login's message; an agent who is not approved is stopped; everyone else is welcomed at the role's landing page, so an agent reaching the agent dashboard is approved |
| SignInPage.Page.constructor | Frontend/src/pages/SignIn.jsx:8-17 | the page starts without having navigated |
| SignInPage.Page.Submit | Frontend/src/pages/SignIn.jsx:28-76 | login is called exactly when both fields pass; without the call nothing changes; a successful login signs the session in even when the pending-agent stop follows; the page navigates only on a welcome, to its page |
| SignUpPage.NameError | Frontend/src/pages/SignUp.jsx:77-80 | a name is accepted exactly when it has at least 2 UTF-16 code units; an empty one is reported as required |
| SignUpPage.ContactError | Frontend/src/pages/SignUp.jsx:110-115 | a contact number is accepted exactly when it has at least 10 characters, each a digit, '+', '-', white space or a parenthesis |
| SignUpPage.RoleError | Frontend/src/pages/SignUp.jsx:127-132 | the account type is accepted exactly when one was chosen |
| SignUpPage.PasswordError | Frontend/src/pages/SignUp.jsx:147-150 | a password is accepted exactly when it has at least 8 UTF-16 code units; an empty one is reported as required |
| SignUpPage.ConfirmError | Frontend/src/pages/SignUp.jsx:162-165 | the confirmation is accepted exactly when it is non-empty and equals the password |
| SignUpPage.ValidFormShape | Frontend/src/pages/SignUp.jsx:147-165 | a valid form's confirmation equals its password, which also passes the sign-in page's rule |
| SignUpPage.AfterSignUp | Frontend/src/pages/SignUp.jsx:33-55 | a rejection fails; an agent goes to /signin and anyone else to the dashboard, with the registration's message |
| SignUpPage.AgentNeverSignedIn | Frontend/src/contexts/AuthContext.jsx:82 | registering as an agent never signs the session in |
| SignUpPage.TokenlessCustomerBounces | Frontend/src/pages/SignUp.jsx:44-50 | a customer whose reply has no token is sent to the dashboard without being signed in, and the guard sends them on to /signin |
| SignUpPage.Page.constructor | Frontend/src/pages/SignUp.jsx:8-15 | the page starts without having navigated |
| SignUpPage.Page.Submit | Frontend/src/pages/SignUp.jsx:17-61 | register is called with the form's payload exactly when every field passes; an agent's success leads to /signin carrying the message without signing in; any other success leads to /user-dashboard; a failure shows the error and stays |
| BookingForm.CheckDates | Frontend/src/pages/UserDashboard.jsx:66-90 | "missing dates" exactly when a field is empty; "invalid date" only where the NaN check exists; with the check, the dates pass exactly when both parse, the start lies after now and the end after the start; without it (Frontend/src/pages/Packages.jsx:59-78) a date that does not parse fails no comparison |
| BookingForm.MalformedDatesPassWithoutGuard | Frontend/src/pages/Packages.jsx:64-78 | two unparseable dates pass the packages page's checks and fail the dashboard's |
| BookingForm.GuardIsStricter | Frontend/src/pages/UserDashboard.jsx:77-80 | dates that pass the checks with the NaN check also pass them without it |
| BookingForm.DigitPrefix | Frontend/src/pages/Packages.jsx:91 | the longest all-digit prefix of the text |
| BookingForm.HexPrefix | Frontend/src/pages/Packages.jsx:91 | the longest prefix of hexadecimal digits of the text |
| BookingForm.ReadRun | Frontend/src/pages/Packages.jsx:91 | a value only when the text starts with a digit: the digits after a 0x prefix in base 16, otherwise the decimal digits |
| BookingForm.ReadSigned | Frontend/src/pages/Packages.jsx:91 | a value only when the text holds a digit, after an optional sign |
| BookingForm.ParseInt | Frontend/src/pages/Packages.jsx:91 | parseInt gives a number only for text that contains a digit |
| BookingForm.DigitPrefixOfDigits | Frontend/src/pages/Packages.jsx:91 | a run of digits ended by a non-digit is exactly the digit prefix |
| BookingForm.ReadRunOfDigits | Frontend/src/pages/Packages.jsx:91 | a decimal run followed by a non-digit reads as its value, unless it is the 0 of a 0x prefix |
| BookingForm.ParseIntReadsDigitRun | Frontend/src/pages/Packages.jsx:91 | parseInt of a decimal run followed by a non-digit is the value of the run |
| BookingForm.NegatedRun | Frontend/src/pages/Packages.jsx:91 | a minus sign in front of a run negates its value |
| BookingForm.ParseIntSkipsSpace | Frontend/src/pages/Packages.jsx:91 | leading white space does not change what parseInt reads |
| BookingForm.ParseIntOfIntToString | Frontend/src/pages/Packages.jsx:91 | parseInt reads back the decimal text of every integer as that integer |
| BookingForm.HexPrefixOfHexDigits | Frontend/src/pages/Packages.jsx:91 | a run of hexadecimal digits ended by another character is exactly the hexadecimal prefix |
| BookingForm.HexValueExample | Frontend/src/pages/Packages.jsx:91 | the digits "1A" are worth 26 in base 16 |
| BookingForm.ParseIntHex | Frontend/src/pages/Packages.jsx:91 | after a 0x or 0X prefix, a run of hexadecimal digits followed by a non-hex character reads as its base-16 value, and an empty run is NaN |
| BookingForm.FirstWord | Frontend/src/pages/Packages.jsx:91 | the text before the first space, which itself contains no space |
| BookingForm.FirstWordOf | Frontend/src/pages/Packages.jsx:91 | the first word of a word, a space and anything is that word |
| BookingForm.DurationOfDaysText | Frontend/src/pages/Packages.jsx:90-92 | a duration written as a number, a space and a unit counts that many days |
| BookingForm.SuggestedEnd | Frontend/src/pages/Packages.jsx:94-104 | with a start date and a selected package whose duration parses, the end field becomes start plus that many days; otherwise the field keeps its value |
| BookingForm.CanCancelIffMoreThanSevenDays | Frontend/src/pages/UserDashboard.jsx:245-250 | a booking can be cancelled exactly when more than seven whole days are left before its start |
| CardForm.MonthExpiryIsLoose | Frontend/src/pages/Packages.jsx:134 | the packages page's expiry pattern admits only what the dashboard's admits |
| CardForm.CheckCard | Frontend/src/pages/Packages.jsx:138-175 | the card is accepted exactly when all six checks hold; otherwise the error named is that of the first failing check, in the order fields filled, number, expiry, CVV, name, not expired (also Frontend/src/pages/UserDashboard.jsx:136-173) |
| CardForm.EarlierMonthRejected | Frontend/src/pages/Packages.jsx:169-175 | a card whose expiry month lies before the current month is refused as expired |
| CardForm.OwnMonthRejected | Frontend/src/pages/Packages.jsx:169-175 | a card expiring this month is refused as soon as the month has begun, since the expiry is the first instant of the month |
| CardForm.MonthExpiryIff | Frontend/src/pages/Packages.jsx:134 | the bounded pattern is the dashboard's pattern with the month between 01 and 12 |
| CardForm.MonthThirteenOnlyLoose | Frontend/src/pages/UserDashboard.jsx:148 | the dashboard takes "13/30" as well-formed and reads it as January 2031; the packages page refuses it |
| CardForm.RemoveSpaces | Frontend/src/pages/UserDashboard.jsx:205 | removing white space never lengthens the text |
| CardForm.RemoveSpacesNoSpace | Frontend/src/pages/UserDashboard.jsx:205 | text without white space is left as it is |
| CardForm.LastFourOfCard | Frontend/src/pages/UserDashboard.jsx:205 | of a well-formed card number, the stored last four are exactly its last four digits |
| CardForm.DigitsOfRemoveSpaces | Frontend/src/pages/Packages.jsx:108 | removing white space before keeping the digits changes nothing |
| CardForm.GroupedIsSpaced | Frontend/src/pages/Packages.jsx:109 | the replacement puts a space after each complete group of four digits, so after trimming the groups are separated by single spaces |
| CardForm.SpacedEnds | Frontend/src/pages/Packages.jsx:109 | the grouped number starts and ends with a digit |
| CardForm.SpacedShape | Frontend/src/pages/Packages.jsx:109 | the grouped number has a space at every fifth position and a digit everywhere else, with one space per extra group |
| CardForm.DigitsOfSpaced | Frontend/src/pages/Packages.jsx:109 | grouping keeps exactly the digits |
| CardForm.FormatCardNumberSpaced | Frontend/src/pages/Packages.jsx:107-111 | the formatted number is the input's digits, grouped |
| CardForm.FormatCardNumberIdempotent | Frontend/src/pages/Packages.jsx:107-111 | formatting the formatted number changes nothing |
| CardForm.SixteenDigitsFormatToCard | Frontend/src/pages/Packages.jsx:107-111 | sixteen digits, typed in any layout, format to a number the card pattern accepts |
| CardForm.FormatExpiry | Frontend/src/pages/Packages.jsx:113-119 | the formatted expiry is at most five characters, or the digits as typed when fewer than two |
| CardForm.FormatExpiryIdempotent | Frontend/src/pages/Packages.jsx:113-119 | formatting the formatted expiry changes nothing |
| CardForm.FormatExpiryShape | Frontend/src/pages/Packages.jsx:113-119 | four or more digits format to an expiry the dashboard's pattern accepts |
| CardForm.FormatCvv | Frontend/src/pages/Packages.jsx:121-123 | the CVV field keeps at most the first four digits of the input |
| CardForm.FormatCvvIdempotent | Frontend/src/pages/Packages.jsx:121-123 | formatting the CVV twice changes nothing, and the result is a valid CVV exactly when three or more digits were typed |
| StableSort.Insert | Frontend/src/pages/Packages.jsx:33-46 | inserting adds exactly the element |
| StableSort.Sort | Frontend/src/pages/Packages.jsx:33-46 | the sort is a permutation of its input |
| StableSort.ConsSorted | Frontend/src/pages/Packages.jsx:33-46 | an element that may precede every element of a sorted list leads a sorted list |
| StableSort.InsertElements | Frontend/src/pages/Packages.jsx:33-46 | inserting only places the new element among the old ones |
| StableSort.InsertSorted | Frontend/src/pages/Packages.jsx:33-46 | with a total, transitive comparator, inserting into a sorted list gives a sorted list |
| StableSort.SortSorted | Frontend/src/pages/Packages.jsx:33-46 | with a total, transitive comparator, the result is sorted |
| StableSort.InsertKeepsOthers | Frontend/src/pages/Packages.jsx:33-46 | inserting an element outside a tie class leaves the elements of that class in their order |
| StableSort.InsertLeadsItsClass | Frontend/src/pages/Packages.jsx:33-46 | with a transitive comparator, an inserted element goes in front of every element already there that it ties with |
| StableSort.SortStable | Frontend/src/pages/Packages.jsx:33-46 | with a transitive comparator, the elements tied with any given one leave the sort in the order they entered it: the sort is stable, as `Array.prototype.sort` is |
| StableSort.AllEqualKeepsOrder | Frontend/src/pages/Packages.jsx:43-44 | a comparator that always answers 0 leaves the list in its order, as a stable sort must |
| PackagesPage.FilterPackages | Frontend/src/pages/Packages.jsx:22-32 | the filtered list holds exactly the packages the duration filter keeps, and 'all' keeps the whole catalogue |
| PackagesPage.DurationFiltersPartition | Frontend/src/pages/Packages.jsx:26-31 | short, medium and long split the packages whose duration parses, each into exactly one class; a duration that does not parse passes none of them |
| PackagesPage.LexLeqTotal | Frontend/src/pages/Packages.jsx:35-36 | any two titles are ordered one way or the other by character codes |
| PackagesPage.LexLeqTransitive | Frontend/src/pages/Packages.jsx:35-36 | the character-code order on titles is transitive |
| PackagesPage.CodeUnitCollation | Frontend/src/pages/Packages.jsx:35-36 | the character-code collation answers 0 exactly for equal titles and a negative number exactly when the first title comes first by character codes |
| PackagesPage.CodeUnitCollationIsConsistent | Frontend/src/pages/Packages.jsx:35-36 | the character-code collation is one consistent collation, so every result below holds of it |
| PackagesPage.BeforeTotal | Frontend/src/pages/Packages.jsx:33-46 | for any consistent collation, each sort key orders any two comparable packages one way or the other |
| PackagesPage.BeforeTransitive | Frontend/src/pages/Packages.jsx:33-46 | for any consistent collation, each sort key's order is transitive on comparable packages |
| PackagesPage.KeyIsPreorder | Frontend/src/pages/Packages.jsx:33-46 | for any consistent collation, each sort key is a total preorder on the packages it compares consistently |
| PackagesPage.DisplayedIsSortedPermutation | Frontend/src/pages/Packages.jsx:22-46 | for any consistent collation, the displayed list is a permutation of the filtered catalogue, in key order, whenever every kept duration parses or another key is chosen |
| PackagesPage.DisplayedKeepsTiesInOrder | Frontend/src/pages/Packages.jsx:22-46 | for any consistent collation, the packages a key ties are displayed in their catalogue order |
| PackagesPage.UnsortedKeepsOrder | Frontend/src/pages/Packages.jsx:43-44 | an unknown sort key keeps the filtered order |
| PackagesPage.PaymentAmount | Frontend/src/pages/Packages.jsx:193 | the amount is the package price plus the insurance price, if one was chosen |
| PackagesPage.PaymentCallsInOrder | Frontend/src/pages/Packages.jsx:183-203 | a payment by the corrected handler records a confirmed booking of the package without a payment, then a completed payment of that amount for the booking, then links the two |
| PackagesPage.PaymentOutcome | Frontend/src/pages/Packages.jsx:125-218 | with the dates from the booking form's state: a card that fails a check is refused with that check's error; otherwise the payment is recorded exactly when a user and a package are present, and a missing one is the caught TypeError |
| PackagesPage.PaymentOutcomeAsWritten | Frontend/src/pages/Packages.jsx:177-181 | as written: with the booking form shown and a package selected the outcome is PaymentOutcome; otherwise a card that passes every check ends in the caught TypeError from reading the missing `#startDate` input |
| PackagesPage.AsWrittenNeverPaysAfterBooking | Frontend/src/pages/Packages.jsx:179 | once the booking form has closed, as it has whenever the payment form is open, a card that passes every check is never paid for and always shows "Payment failed", while the corrected handler pays for it when a user and a package are present |
| PackagesPage.Page.constructor | Frontend/src/pages/Packages.jsx:13-18 | nothing is selected and neither form is open |
| PackagesPage.Page.SelectPackage | Frontend/src/pages/Packages.jsx:48-55 | a signed-in visitor's choice opens the booking form for it; otherwise nothing changes |
| PackagesPage.Page.SubmitBooking | Frontend/src/pages/Packages.jsx:57-83 | the error is the date check's without the NaN check; on success the booking form closes and the payment form opens; on error nothing changes |
| PackagesPage.Page.StartDateChange | Frontend/src/pages/Packages.jsx:94-104 | the end field becomes the suggested end; nothing else changes |
| PackagesPage.Page.SubmitPayment | Frontend/src/pages/Packages.jsx:125-218 | the corrected handler, with the dates from the booking form's state: the notice is PaymentOutcome; store calls are made exactly when the payment is recorded, and then they are the three calls in order, the selection is cleared and the page goes to the customer dashboard; otherwise the page state is unchanged |
| PackagesPage.Page.SubmitPaymentAsWritten | Frontend/src/pages/Packages.jsx:125-218 | the handler as written: the notice is PaymentOutcomeAsWritten for whether the booking form is still shown; store calls are made exactly when the payment is recorded, with the same calls and state as the corrected handler; otherwise the page state is unchanged |
| UserDashboard.TotalAmount | Frontend/src/pages/UserDashboard.jsx:177 | the amount is a number exactly when the package has a price under either name, and then it is that price plus the insurance price, if any |
| UserDashboard.Description | Frontend/src/pages/UserDashboard.jsx:206 | the description starts with "Payment for " and names a non-empty `title`, else `Title`, printed as "null" when it is null and "undefined" when it is absent |
| UserDashboard.PaymentFor | Frontend/src/pages/UserDashboard.jsx:200-207 | the payment request is for the held booking id, by credit card, with the total amount and the card's last four |
| UserDashboard.Cancelled | Frontend/src/pages/UserDashboard.jsx:252-261 | exactly the entries whose BookingID equals the id become cancelled, and all others are kept |
| UserDashboard.CancelIdempotent | Frontend/src/pages/UserDashboard.jsx:252-261 | cancelling twice is cancelling once |
| UserDashboard.WrappersKeptByIdCancel | Frontend/src/pages/UserDashboard.jsx:112 | the entries appended after a booking, which have no BookingID, are never touched by cancelling a real id |
| UserDashboard.Dashboard.constructor | Frontend/src/pages/UserDashboard.jsx:11-19 | nothing is selected, no form is open and no booking is held |
| UserDashboard.Dashboard.SelectPackage | Frontend/src/pages/UserDashboard.jsx:59-62 | choosing a package selects it and opens the booking form, with no sign-in check |
| UserDashboard.Dashboard.SelectInsurance | Frontend/src/pages/UserDashboard.jsx:520 | choosing an insurance option selects it and changes nothing else |
| UserDashboard.Dashboard.SubmitBooking | Frontend/src/pages/UserDashboard.jsx:64-126 | the pending booking request goes out exactly when the date checks with the NaN check pass and a package is selected; on success the returned booking is held and appended, and the payment form replaces the booking form; otherwise nothing changes |
| UserDashboard.Dashboard.SubmitPayment | Frontend/src/pages/UserDashboard.jsx:128-232 | the payment is sent exactly when the card passes the dashboard's checks, a package is selected and a booking with an id is held; only a successful payment confirms that booking, closes the form, drops the held booking and reloads the list; a failed one keeps everything for a retry |
| UserDashboard.Dashboard.CloseBookingModal | Frontend/src/pages/UserDashboard.jsx:235-238 | closing the booking form drops the held booking |
| UserDashboard.Dashboard.ClosePaymentModal | Frontend/src/pages/UserDashboard.jsx:240-243 | closing the payment form drops the held booking |
| UserDashboard.Dashboard.CancelBooking | Frontend/src/pages/UserDashboard.jsx:252-261 | the list becomes Cancelled of the old list, on the client only; nothing else changes |
| AdminDashboard.Unwrap | Frontend/src/pages/AdminDashboard.jsx:46-50 | a failed call gives []; otherwise the list under `data.data` when it is one, else the body itself when it is a list, else [] |
| AdminDashboard.UnwrapOneLevel | Frontend/src/pages/AdminDashboard.jsx:46 | unwrapping looks exactly one level deep, so a list wrapped twice gives [] |
| AdminDashboard.RevenueAppend | Frontend/src/pages/AdminDashboard.jsx:79 | one payment contributes its `Amount || amount || 0`, and the revenue of two lists joined is the sum of their revenues |
| AdminDashboard.AmountPrefersCapital | Frontend/src/pages/AdminDashboard.jsx:79 | a non-zero `Amount` is taken; a zero or missing one falls through to `amount`, and to 0 when that is zero or missing too |
| AdminDashboard.Revenue | Frontend/src/pages/AdminDashboard.jsx:79 | the revenue of no payments is 0, and it is never negative when no amount is |
| AdminDashboard.StatisticsBounded | Frontend/src/pages/AdminDashboard.jsx:74-82 | agents plus customers never exceed the users, pending agents are among the agents, pending plus confirmed bookings never exceed the bookings, and pending requests never exceed the requests |
| AdminDashboard.RoleLessIsCustomer | Frontend/src/pages/AdminDashboard.jsx:23 | a user with no role counts as a customer and never as an agent |
| AdminDashboard.Dashboard.constructor | Frontend/src/pages/AdminDashboard.jsx:11-15 | all five lists start empty |
| AdminDashboard.Dashboard.Load | Frontend/src/pages/AdminDashboard.jsx:33-58 | each list becomes its unwrapped response |
| AdminDashboard.Dashboard.RemoveUser | Frontend/src/pages/AdminDashboard.jsx:84-100 | the delete is called exactly when the prompt is confirmed; only a successful delete drops every user with that id; a failed one keeps the list and shows "Failed to remove user"; no other list changes |
| AdminDashboard.Dashboard.UserApproval | Frontend/src/pages/AdminDashboard.jsx:102-130 | 'approved' calls approve and anything else reject; on success exactly the users with that id take the decision under both spellings; on failure the list is kept and the notice is "Failed to " + approval + " user"; no other list changes |
| AdminDashboard.Dashboard.StatusChange | Frontend/src/pages/AdminDashboard.jsx:133-143 | the status selects only announce that the feature is not available |
| AdminDashboard.Dashboard.SetResolutionTime | Frontend/src/pages/AdminDashboard.jsx:536-546 | a non-blank entry, trimmed, is stored on exactly the requests with that RequestID; a blank one changes nothing |
| AdminDashboard.RemovalExact | Frontend/src/pages/AdminDashboard.jsx:90 | after a removal no user with the id remains and every other user stays |
| AdminDashboard.ApprovalClearsPending | Frontend/src/pages/AdminDashboard.jsx:113-115 | approving a user takes it out of the pending-agent count and keeps its id |
| ProfilePage.ProfileName | Frontend/src/pages/Profile.jsx:20 | the name shown is never empty, "Unknown User" being the fallback |
| ProfilePage.ProfileRole | Frontend/src/pages/Profile.jsx:23 | the role is never empty: the user's own role under either spelling, else "customer" |
| ProfilePage.ProfileApproval | Frontend/src/pages/Profile.jsx:24 | the approval is never empty: the user's own under either spelling, else "approved" |
| ProfilePage.FormFor | Frontend/src/pages/Profile.jsx:26-32 | the form shows the user's name, e-mail and contact number with both password fields empty |
| ProfilePage.UpdateFor | Frontend/src/pages/Profile.jsx:145-155 | the update carries the form's three fields and the user's current role and approval, and a password exactly when one was typed |
| ProfilePage.Pick | Frontend/src/pages/Profile.jsx:161-164 | a property the response has, a null one included, wins over the user's; one it lacks keeps the user's |
| ProfilePage.Overlay | Frontend/src/pages/Profile.jsx:161-164 | every property the response has replaces the user's, a null one included; only the properties it lacks are kept |
| ProfilePage.AsUser | Frontend/src/pages/Profile.jsx:161-164 | with no user before, the response alone becomes the user, absent and null both reading as no value; a response with every property gives that user whatever came before |
| ProfilePage.OverlayLaws | Frontend/src/pages/Profile.jsx:161-164 | overlaying the same response twice is overlaying it once, an empty response changes nothing, and a null contact number in the response wipes the user's |
| ProfilePage.BookingStatusClass | Frontend/src/pages/Profile.jsx:184-192 | the three known statuses have their own class and anything else is shown as pending |
| ProfilePage.RefreshFailedText | Frontend/src/contexts/AuthContext.jsx:152-154 | a failed refresh reports the reply's error when it is non-empty, else "Failed to refresh user data" |
| ProfilePage.Page.constructor | Frontend/src/pages/Profile.jsx:11-32 | the page starts out of edit mode with the form filled from the signed-in user |
| ProfilePage.Page.UserChanged | Frontend/src/pages/Profile.jsx:41-52 | whenever a user is set, the form is filled from that user with both passwords empty; without one the form stays |
| ProfilePage.Page.Submit | Frontend/src/pages/Profile.jsx:138-178 | differing passwords stop it before any call; otherwise the update is sent; a success overlays the response on the user, keeps the token, refills the form from the new user with both passwords emptied and leaves edit mode; a failure changes nothing and shows "Failed to update profile" |
| ProfilePage.Page.Refresh | Frontend/src/pages/Profile.jsx:56-83 | nothing is asked without a user; a fresh record becomes the user with the token kept, and the form ends filled from that new user with both passwords empty; a failure changes nothing and shows the reply's error, else "Failed to refresh user data" |
| ReviewsPage.FindPackage | Frontend/src/pages/Reviews.jsx:126-128 | a package found has the id under either spelling, and none is found only when no package has it |
| ReviewsPage.OnlyOwningAgentReplies | Frontend/src/pages/Reviews.jsx:144-149 | only an agent may reply, and only to a review of a known package whose AgentID is the agent's id |
| ReviewsPage.Repeat | Frontend/src/pages/Reviews.jsx:131 | `repeat` gives the character the given number of times |
| ReviewsPage.RenderStars | Frontend/src/pages/Reviews.jsx:130-132 | a rating from 0 to 5 renders as five stars, that many filled; a missing rating renders as nothing; any other rating makes `repeat` throw a RangeError during render, which with no error boundary unmounts the whole app |
| ReviewsPage.Summarize | Frontend/src/pages/Reviews.jsx:345-366 | the summary counts every review shown and no more 4+ reviews than reviews; the rating total is a number exactly when every review has a rating (NaN otherwise), and with ratings from 1 to 5 it lies between the count and five times the count |
| ReviewsPage.RatingBounds | Frontend/src/pages/Reviews.jsx:355 | the rating total is NaN exactly when some review has no rating; ratings from 1 to 5 add up to between the count and five times the count, so the average lies between 1 and 5 |
| ReviewsPage.AppendedEnvelopeHasNoRating | Frontend/src/pages/Reviews.jsx:84 | the create call's body appended as a review counts as one more review, turns the rating total, and so the average, into NaN, renders no stars and has no ReviewID and no comment |
| ReviewsPage.CheckReview | Frontend/src/pages/Reviews.jsx:58-71 | the form passes exactly when the comment is not blank, a package is chosen and the rating is from 1 to 5; a blank comment or no package is "fill in all fields" |
| ReviewsPage.RequestOf | Frontend/src/pages/Reviews.jsx:75-79 | the body carries the package id as parseInt reads it, the rating, and the comment untrimmed |
| ReviewsPage.Page.constructor | Frontend/src/pages/Reviews.jsx:9-17 | no reviews or packages, with the form closed and at its defaults |
| ReviewsPage.Page.Load | Frontend/src/pages/Reviews.jsx:25-52 | each list is replaced by its unwrapped response when the call succeeded and kept otherwise |
| ReviewsPage.Page.SubmitReviewAsWritten | Frontend/src/pages/Reviews.jsx:54-98 | the handler as written: the request goes out exactly when the form passes; after a successful create the reply's body, `{success, data}`, is appended rather than the review, and the form resets and closes; a failure or an invalid form changes nothing |
| ReviewsPage.Page.SubmitReview | Frontend/src/pages/Reviews.jsx:54-98 | the corrected handler: the request goes out exactly when the form passes; the review the backend created is appended and the form resets and closes; a failure reports its error, and a failure or an invalid form changes nothing |
| ReviewsPage.Page.Submit | Frontend/src/pages/Reviews.jsx:54-98 | the checks and the call of both handlers, appending the element they are given on success |
| ReviewsPage.Page.Accept | Frontend/src/pages/Reviews.jsx:84-86 | the given element is appended after the reviews, and the form resets and closes |
| ReviewsPage.Page.SubmitReply | Frontend/src/pages/Reviews.jsx:100-119 | a blank reply sends nothing; otherwise the reply is sent for the review's ReviewID, and on success exactly the reviews whose id matches it take the reply |
| ReviewsPage.ReplyLocal | Frontend/src/pages/Reviews.jsx:106-110 | a reply changes no review with another id, and only the reply of the matching ones |
| ReviewsPage.CamelCaseIdNotMatched | Frontend/src/pages/Reviews.jsx:326-328 | a review whose id is set only in camel case never matches the id its own button sends, so the reply is stored but not shown |
| AssistancePage.JsMax | Frontend/src/pages/Assistance.jsx:37 | the larger of two numbers, NaN when either is NaN, and -Infinity only when both are |
| AssistancePage.MaxOf | Frontend/src/pages/Assistance.jsx:37 | `Math.max` is NaN exactly when some id is NaN and -Infinity exactly when every id is -Infinity, no ids included; otherwise it is one of the ids and no finite id exceeds it |
| AssistancePage.NewIdFresh | Frontend/src/pages/Assistance.jsx:37 | a NaN id makes the next id NaN; ids that are all -Infinity, or none, give -Infinity; otherwise, with no NaN, the next id exceeds every finite id |
| AssistancePage.NegInfinityIdIsLeast | Frontend/src/pages/Assistance.jsx:37 | beside the id 3 a stored -Infinity id gives the maximum 3; two -Infinity ids give the next id -Infinity again |
| AssistancePage.Ids | Frontend/src/pages/Assistance.jsx:37 | the ids are the requests' RequestIDs in order, -Infinity and NaN included |
| AssistancePage.NewRequest | Frontend/src/pages/Assistance.jsx:36-47 | the new request is pending, belongs to the user, carries the form's texts and priority and the joined description, takes the next id, and has the clock reading as its date and timestamp |
| AssistancePage.OwnRequests | Frontend/src/pages/Assistance.jsx:18-26 | a user sees exactly the requests with their UserID |
| AssistancePage.SignedOutVisitorCrashes | Frontend/src/pages/Assistance.jsx:26 | as written, a visitor who is not signed in makes the page read a property of a missing user and crash |
| AssistancePage.Render | Frontend/src/pages/Assistance.jsx:92-103 | with the user read optionally, the page crashes only for a session signed in without a user; a signed-out visitor gets the sign-in prompt; with a user it renders as the original does |
| AssistancePage.NeverCrashesInValidSession | Frontend/src/pages/Assistance.jsx:92-103 | in a session where signing in implies a user, the corrected page never crashes |
| AssistancePage.StatusClass | Frontend/src/pages/Assistance.jsx:62-71 | each of the four known statuses has its own class and any other string that is not a member of `Object.prototype` shows as pending |
| AssistancePage.StatusLabel | Frontend/src/pages/Assistance.jsx:72 | only the first underscore of the status becomes a space |
| AssistancePage.PriorityClass | Frontend/src/pages/Assistance.jsx:77-86 | each of the four known priorities has its own class and any other string that is not a member of `Object.prototype` shows as medium |
| AssistancePage.Page.constructor | Frontend/src/pages/Assistance.jsx:10-16 | no requests shown, the form closed and at its defaults |
| AssistancePage.Page.Sync | Frontend/src/pages/Assistance.jsx:18-26 | when signed in with a user, the list shown becomes that user's requests; otherwise it is kept |
| AssistancePage.Page.Submit | Frontend/src/pages/Assistance.jsx:28-60 | an empty subject or message adds nothing; otherwise the new request is added, appended to the list shown, and the form resets and closes |
| BookingService.PackageIds | Backend/booking-service/src/main/java/com/tpbs/bookingservice/service/impl/BookingServiceImpl.java:156-158 | the id list exists exactly when every package's id converts to text that parses, and then holds each parsed id in order |
| BookingService.Enrich | Backend/booking-service/src/main/java/com/tpbs/bookingservice/service/impl/BookingServiceImpl.java:116-132 | the booking is always kept; a 2xx answer puts its "data" entry, a bad answer puts nothing, and an exception puts null |
| BookingService.BookingStore.constructor | Backend/booking-service/src/main/java/com/tpbs/bookingservice/service/impl/BookingServiceImpl.java:24 | an empty repository whose first id is 1 |
| BookingService.BookingStore.ById | Backend/booking-service/src/main/java/com/tpbs/bookingservice/service/impl/BookingServiceImpl.java:36-42 | the stored booking exactly when the id is present, otherwise the not-found error |
| BookingService.BookingStore.ByUser | Backend/booking-service/src/main/java/com/tpbs/bookingservice/service/impl/BookingServiceImpl.java:44-50 | a booking is listed exactly when it is stored and belongs to the user |
| BookingService.BookingStore.ByPackage | Backend/booking-service/src/main/java/com/tpbs/bookingservice/service/impl/BookingServiceImpl.java:52-58 | a booking is listed exactly when it is stored and is on the package |
| BookingService.BookingStore.WithPackageDetails | Backend/booking-service/src/main/java/com/tpbs/bookingservice/service/impl/BookingServiceImpl.java:110-136 | one entry per booking of the user, in the same order, each enriched on its own |
| BookingService.BookingStore.Create | Backend/booking-service/src/main/java/com/tpbs/bookingservice/service/impl/BookingServiceImpl.java:60-67 | the request's fields are stored under a fresh id with status "pending", whatever id and status it carried; nothing else changes |
| BookingService.BookingStore.Update | Backend/booking-service/src/main/java/com/tpbs/bookingservice/service/impl/BookingServiceImpl.java:69-83 | an unknown id changes nothing and fails; otherwise the six fields are overwritten and the id is kept |
| BookingService.BookingStore.Delete | Backend/booking-service/src/main/java/com/tpbs/bookingservice/service/impl/BookingServiceImpl.java:85-91 | an unknown id changes nothing and fails; otherwise exactly that booking is removed |
| BookingService.BookingStore.SetStatus | Backend/booking-service/src/main/java/com/tpbs/bookingservice/service/impl/BookingServiceImpl.java:93-108 | an unknown id changes nothing and fails; otherwise only the status of that booking changes |
| BookingService.BookingStore.Cancel | Backend/booking-service/src/main/java/com/tpbs/bookingservice/service/impl/BookingServiceImpl.java:93-100 | the booking becomes "cancelled" from any status |
| BookingService.BookingStore.Confirm | Backend/booking-service/src/main/java/com/tpbs/bookingservice/service/impl/BookingServiceImpl.java:101-108 | the booking becomes "confirmed" from any status |
| BookingService.BookingStore.AgentDashboardData | Backend/booking-service/src/main/java/com/tpbs/bookingservice/service/impl/BookingServiceImpl.java:138-194 | an exception gives only the error entry; a bad answer gives empty lists and zero counts; a body without "data", or an id that will not parse, gives the error entry next to whatever packages entry was put; otherwise it gives the bookings of each package in turn with their total, confirmed and pending counts |
| BookingService.DashboardBookingsExact | Backend/booking-service/src/main/java/com/tpbs/bookingservice/service/impl/BookingServiceImpl.java:160-163 | a booking is on the dashboard exactly when it is stored and is on one of the agent's packages |
| BookingService.DashboardCountsBounded | Backend/booking-service/src/main/java/com/tpbs/bookingservice/service/impl/BookingServiceImpl.java:168-174 | the confirmed and pending counts together never exceed the total |
| BookingService.RepeatedPackageCountedTwice | Backend/booking-service/src/main/java/com/tpbs/bookingservice/service/impl/BookingServiceImpl.java:161-163 | a package listed twice has its bookings gathered, and counted, twice |
| BookingController.CheckNewBooking | Backend/booking-service/src/main/java/com/tpbs/bookingservice/controller/BookingController.java:98-126 | a new booking passes exactly when it has a package and both dates and does not start after it ends; the missing package, start and end are reported in that order |
| BookingController.SameDayAccepted | Backend/booking-service/src/main/java/com/tpbs/bookingservice/controller/BookingController.java:120-126 | a booking that starts and ends on the same day is accepted |
| BookingController.CreateBooking | Backend/booking-service/src/main/java/com/tpbs/bookingservice/controller/BookingController.java:80-133 | no token user gives 401; a failed check gives 400 and stores nothing; otherwise 201 with the booking stored under a fresh id, pending and owned by the token's user |
| BookingController.Gate | Backend/booking-service/src/main/java/com/tpbs/bookingservice/controller/BookingController.java:142-157 | the call goes through exactly when the token names a user who owns the stored booking; no user gives 401, another owner gives 403, and an unknown id or an ownerless booking never answers with data |
| BookingController.UpdateBooking | Backend/booking-service/src/main/java/com/tpbs/bookingservice/controller/BookingController.java:135-167 | a refused call changes nothing; an owner's update stores the body under the same id with the owner kept |
| BookingController.DeleteBooking | Backend/booking-service/src/main/java/com/tpbs/bookingservice/controller/BookingController.java:169-197 | a refused call changes nothing; an owner's delete removes exactly that booking |
| BookingController.CancelBooking | Backend/booking-service/src/main/java/com/tpbs/bookingservice/controller/BookingController.java:199-227 | a refused call changes nothing; an owner's cancel sets only the status, to "cancelled" |
| BookingController.ConfirmBooking | Backend/booking-service/src/main/java/com/tpbs/bookingservice/controller/BookingController.java:229-237 | any caller confirms a stored booking; an unknown id is an uncaught 500 that changes nothing |
| BookingController.MyBookings | Backend/booking-service/src/main/java/com/tpbs/bookingservice/controller/BookingController.java:53-69 | no token user gives 401; otherwise exactly the stored bookings of that user |
| PaymentService.ConversionsInverse | Backend/payment-service/src/main/java/com/tpbs/paymentservice/service/impl/PaymentServiceImpl.java:243-271 | `toDto` and `toEntity` are inverse to each other, field for field |
| PaymentService.Dtos | Backend/payment-service/src/main/java/com/tpbs/paymentservice/service/impl/PaymentServiceImpl.java:31-37 | one transfer object per payment, in the same order, and an object is listed exactly when its entity is |
| PaymentService.TransactionId | Backend/payment-service/src/main/java/com/tpbs/paymentservice/service/impl/PaymentServiceImpl.java:123 | the transaction id is "TXN-" followed by the clock's milliseconds |
| PaymentService.RelatedOr | Backend/payment-service/src/main/java/com/tpbs/paymentservice/service/impl/PaymentServiceImpl.java:190-216 | a 2xx answer gives its "data" entry; a bad answer or an exception gives the fallback for the id; a missing id makes the fallback itself fail |
| PaymentService.Enrich | Backend/payment-service/src/main/java/com/tpbs/paymentservice/service/impl/PaymentServiceImpl.java:159-175 | the payment is always kept; a 2xx answer puts its booking, a bad answer puts nothing, and an exception puts null |
| PaymentService.PaymentStore.constructor | Backend/payment-service/src/main/java/com/tpbs/paymentservice/service/impl/PaymentServiceImpl.java:27 | an empty repository whose first id is 1 |
| PaymentService.PaymentStore.All | Backend/payment-service/src/main/java/com/tpbs/paymentservice/service/impl/PaymentServiceImpl.java:33-37 | every stored payment is listed, and only stored payments |
| PaymentService.PaymentStore.AllInKeyOrder | Backend/payment-service/src/main/java/com/tpbs/paymentservice/service/impl/PaymentServiceImpl.java:33-37 | the listing is the stored payments at their keys in ascending order, each converted |
| PaymentService.PaymentStore.ById | Backend/payment-service/src/main/java/com/tpbs/paymentservice/service/impl/PaymentServiceImpl.java:39-45 | the stored payment exactly when the id is present, otherwise the not-found error |
| PaymentService.PaymentStore.ByUser | Backend/payment-service/src/main/java/com/tpbs/paymentservice/service/impl/PaymentServiceImpl.java:47-53 | a payment is listed exactly when it is stored and belongs to the user |
| PaymentService.PaymentStore.ByBooking | Backend/payment-service/src/main/java/com/tpbs/paymentservice/service/impl/PaymentServiceImpl.java:55-61 | a payment is listed exactly when it is stored and belongs to the booking |
| PaymentService.PaymentStore.WithBookingDetails | Backend/payment-service/src/main/java/com/tpbs/paymentservice/service/impl/PaymentServiceImpl.java:153-179 | one entry per payment of the user, in the same order, each enriched on its own |
| PaymentService.PaymentStore.WithDetails | Backend/payment-service/src/main/java/com/tpbs/paymentservice/service/impl/PaymentServiceImpl.java:183-224 | an unknown payment gives only the error entry; otherwise the payment, then the booking and the user each with its own fallback; a fallback for a null id puts the error entry and ends the filling, so a failing user fallback leaves the booking in; two 2xx answers always give the full map without error |
| PaymentService.PaymentStore.Save | Backend/payment-service/src/main/java/com/tpbs/paymentservice/service/impl/PaymentServiceImpl.java:68 | `save` merges into the row with the entity's id or stores it under a fresh id, and nothing else changes |
| PaymentService.PaymentStore.Create | Backend/payment-service/src/main/java/com/tpbs/paymentservice/service/impl/PaymentServiceImpl.java:63-70 | stored with status "PENDING" and the clock's date, every other field as sent |
| PaymentService.PaymentStore.Process | Backend/payment-service/src/main/java/com/tpbs/paymentservice/service/impl/PaymentServiceImpl.java:115-137 | stored with status "COMPLETED", the clock's date and a "TXN-" transaction id, every other field as sent |
| PaymentService.PaymentStore.Update | Backend/payment-service/src/main/java/com/tpbs/paymentservice/service/impl/PaymentServiceImpl.java:71-85 | an unknown id changes nothing and fails; otherwise six fields are overwritten and the user, booking and date stay |
| PaymentService.PaymentStore.UpdateStatus | Backend/payment-service/src/main/java/com/tpbs/paymentservice/service/impl/PaymentServiceImpl.java:87-105 | the status always changes; the transaction id and the description change only when the new one is not blank; nothing else changes |
| PaymentService.PaymentStore.Delete | Backend/payment-service/src/main/java/com/tpbs/paymentservice/service/impl/PaymentServiceImpl.java:107-113 | an unknown id changes nothing and fails; otherwise exactly that payment is removed |
| PaymentService.PaymentStore.Refund | Backend/payment-service/src/main/java/com/tpbs/paymentservice/service/impl/PaymentServiceImpl.java:139-151 | it succeeds exactly for a stored payment whose status is "COMPLETED", which becomes "REFUNDED"; an unknown id or any other status fails with its own message and changes nothing |
| PaymentService.BlankDetailsKept | Backend/payment-service/src/main/java/com/tpbs/paymentservice/service/impl/PaymentServiceImpl.java:94-100 | text made only of characters up to U+0020 counts as blank, and text with a visible character does not |
| PaymentController.CheckPayment | Backend/payment-service/src/main/java/com/tpbs/paymentservice/controller/PaymentController.java:105-125 | a payment passes exactly when it has a booking, a positive amount and a method that is not blank; a missing booking and then a bad amount are reported first |
| PaymentController.CreateOrProcess | Backend/payment-service/src/main/java/com/tpbs/paymentservice/controller/PaymentController.java:87-181 | no token user gives 401; a failed check gives 400 and stores nothing; every request that passes the checks is answered: the body with the token's user, the save key as id and the clock's date, status "PENDING" (201) on create and "COMPLETED" with the clock's transaction id (200) on process, stored under that key with every other row unchanged |
| PaymentController.Gate | Backend/payment-service/src/main/java/com/tpbs/paymentservice/controller/PaymentController.java:189-205 | the call goes through exactly when the token names a user who owns the stored payment; no user gives 401, another owner gives 403, and an unknown id or an ownerless payment never answers with data |
| PaymentController.UpdatePayment | Backend/payment-service/src/main/java/com/tpbs/paymentservice/controller/PaymentController.java:183-216 | a refused call changes nothing; an owner's update answers the stored payment with amount, method, status, transaction id, card digits and description from the body, keeping the owner, the booking and the date, and replaces only that row |
| PaymentController.RefundPayment | Backend/payment-service/src/main/java/com/tpbs/paymentservice/controller/PaymentController.java:230-260 | a refused call changes nothing; an owner's refund of a completed payment answers it "REFUNDED", and any other status is an uncaught 500 that changes nothing |
| PaymentController.DeletePayment | Backend/payment-service/src/main/java/com/tpbs/paymentservice/controller/PaymentController.java:262-291 | a refused call changes nothing; an owner's delete removes exactly that payment |
| PaymentController.UpdatePaymentStatus | Backend/payment-service/src/main/java/com/tpbs/paymentservice/controller/PaymentController.java:218-228 | any caller changes the status of a stored payment; the transaction id and description are replaced only by ones with text; no other field and no other row changes; an unknown id is an uncaught 500 that changes nothing |
| UserModel.NewUser | Backend/user-service/src/main/java/com/tpbs/userservice/model/User.java:54-61 | a new user has no id yet, the given fields, approval "approved" and its flag set, so it is enabled |
| UserModel.ApprovedIsTheWord | Backend/user-service/src/main/java/com/tpbs/userservice/model/User.java:101-104 | the approval the services write is the word `isEnabled` looks for |
| UserModel.ApprovalDecidesEnabled | Backend/user-service/src/main/java/com/tpbs/userservice/model/User.java:101-104 | with the flag set, an account is enabled exactly when its approval is "approved" in any ASCII case; "pending", "rejected" and no approval disable it |
| UserModel.Authority | Backend/user-service/src/main/java/com/tpbs/userservice/model/User.java:76-79 | the one authority is "ROLE_" followed by the role with its ASCII letters upper-cased, no ASCII lower-case letter left after the prefix; a missing role fails |
| UserModel.AuthorityIgnoresCase | Backend/user-service/src/main/java/com/tpbs/userservice/model/User.java:76-79 | roles that differ only in ASCII case give the same authority |
| UserModel.CustomerAuthority | Backend/user-service/src/main/java/com/tpbs/userservice/model/User.java:76-79 | the customer role gives "ROLE_CUSTOMER" |
| UserModel.Dtos | Backend/user-service/src/main/java/com/tpbs/userservice/service/impl/UserServiceImpl.java:115-120 | every user of the list has its record in the result, and every record comes from a user of the list |
| UserModel.ConversionsInverse | Backend/user-service/src/main/java/com/tpbs/userservice/service/impl/UserServiceImpl.java:227-251 | a record survives the trip through an entity, and an enabled entity survives the trip through its record once its password is put back |
| UserService.ApprovalFor | Backend/user-service/src/main/java/com/tpbs/userservice/service/impl/UserServiceImpl.java:86-91 | registration approves exactly a customer or an admin, in any ASCII case, and leaves every other role pending |
| UserService.AgentsWait | Backend/user-service/src/main/java/com/tpbs/userservice/service/impl/UserServiceImpl.java:86-91 | an agent in any spelling, or a missing role, registers pending; "Customer" and "ADMIN" are approved |
| UserService.UserStore.constructor | Backend/user-service/src/main/java/com/tpbs/userservice/service/impl/UserServiceImpl.java:28 | an empty repository whose first id is 1 |
| UserService.UserStore.ByEmail | Backend/user-service/src/main/java/com/tpbs/userservice/service/impl/UserServiceImpl.java:34-35 | the one stored user with that email exactly when the email is taken |
| UserService.UserStore.LoadUserByUsername | Backend/user-service/src/main/java/com/tpbs/userservice/service/impl/UserServiceImpl.java:32-36 | the stored user whose username is the email exactly when the email is taken, otherwise the not-found message |
| UserService.UserStore.ById | Backend/user-service/src/main/java/com/tpbs/userservice/service/impl/UserServiceImpl.java:122-126 | the record of the stored user exactly when the id is present |
| UserService.UserStore.Login | Backend/user-service/src/main/java/com/tpbs/userservice/service/impl/UserServiceImpl.java:38-65 | it succeeds exactly for a stored, enabled user whose password matches, answering that user's record and a token over their claims; an unknown email and a wrong password give the same error, and every error is wrapped as "Authentication failed" |
| UserService.UserStore.Register | Backend/user-service/src/main/java/com/tpbs/userservice/service/impl/UserServiceImpl.java:67-113 | a taken email fails and changes nothing; otherwise the user is stored under a fresh id with the role's approval, and the token and the welcome message are given exactly when the account is enabled at once |
| UserService.UserStore.Insert | Backend/user-service/src/main/java/com/tpbs/userservice/service/impl/UserServiceImpl.java:93 | the new user is stored under the next id and emails stay unique |
| UserService.UserStore.Create | Backend/user-service/src/main/java/com/tpbs/userservice/service/impl/UserServiceImpl.java:134-146 | a taken email fails and changes nothing; otherwise the user is saved with the default password, the clock's date and the approval sent |
| UserService.UserStore.Update | Backend/user-service/src/main/java/com/tpbs/userservice/service/impl/UserServiceImpl.java:148-168 | an unknown id or a change to a taken email fails and saves nothing; otherwise name, contact, role and approval change, the email changes only when it differs, and the password and date stay |
| UserService.UserStore.Delete | Backend/user-service/src/main/java/com/tpbs/userservice/service/impl/UserServiceImpl.java:170-176 | an unknown id changes nothing and fails; otherwise exactly that user is removed |
| UserService.UserStore.SetApproval | Backend/user-service/src/main/java/com/tpbs/userservice/service/impl/UserServiceImpl.java:192-210 | an unknown id changes nothing and fails; otherwise only the approval changes |
| UserService.UserStore.Approve | Backend/user-service/src/main/java/com/tpbs/userservice/service/impl/UserServiceImpl.java:192-200 | the user's approval becomes "approved" and the account is then enabled |
| UserService.UserStore.Reject | Backend/user-service/src/main/java/com/tpbs/userservice/service/impl/UserServiceImpl.java:202-210 | the user's approval becomes "rejected" and the account is then no longer enabled |
| UserService.EnabledAccountsLogIn | Backend/user-service/src/main/java/com/tpbs/userservice/service/impl/UserServiceImpl.java:43-60 | an enabled account logs in with any matching password and gets a token over its own claims; an account that is not enabled never logs in |
| UserController.AdminPassesWiderCheck | Backend/user-service/src/main/java/com/tpbs/userservice/controller/UserController.java:25-46 | whoever passes the admin check passes the admin-or-agent check; an internal call passes it with no role, and no role without an internal call fails it |
| UserController.AdminGate | Backend/user-service/src/main/java/com/tpbs/userservice/controller/UserController.java:57-68 | the call goes through exactly for the admin role in any ASCII case; anyone else gets 403 with the admin message |
| UserController.AllUsers | Backend/user-service/src/main/java/com/tpbs/userservice/controller/UserController.java:64-73 | a non-admin gets 403; an admin gets exactly the records of the stored users |
| UserController.UserById | Backend/user-service/src/main/java/com/tpbs/userservice/controller/UserController.java:75-115 | a caller who is neither admin nor agent nor an internal call gets 403; an unknown id gets 404 with no body; otherwise 200 with the user's id, name, email, contact and role, which the source sends inside a `{success: true, data}` map |
| UserController.CreateUser | Backend/user-service/src/main/java/com/tpbs/userservice/controller/UserController.java:140-154 | a non-admin gets 403 and nothing is stored; a taken email gets 400 with no body; otherwise the body is stored under the save key with the default password and the clock's registration date, every other row unchanged, and answered as stored |
| UserController.UpdateUser | Backend/user-service/src/main/java/com/tpbs/userservice/controller/UserController.java:154-168 | a non-admin gets 403; the update succeeds exactly when the id is stored and the email is unchanged or free, and then replaces only that row, taking name, contact, role, approval and email from the body and keeping the password; any failure is 400 and changes nothing |
| UserController.DeleteUser | Backend/user-service/src/main/java/com/tpbs/userservice/controller/UserController.java:261-275 | a non-admin gets 403; an unknown id gets 404; otherwise exactly that user is removed |
| UserController.DecideApproval | Backend/user-service/src/main/java/com/tpbs/userservice/controller/UserController.java:288-318 | a non-admin gets 403; an unknown id gets 404; otherwise only the approval changes, and the account is enabled exactly when it was approved |
| UserController.ProfileGate | Backend/user-service/src/main/java/com/tpbs/userservice/controller/UserController.java:174-191 | missing id or email headers give 401, an id that does not parse gives 400, an unknown id gives 404, in that order; otherwise the call goes through |
| UserController.CurrentProfile | Backend/user-service/src/main/java/com/tpbs/userservice/controller/UserController.java:222-259 | past the profile checks, the stored record of the header's user |
| UserController.OwnProfileBody | Backend/user-service/src/main/java/com/tpbs/userservice/controller/UserController.java:195-205 | the saved body takes the id and email from the headers, the role from its header when there is one, and the stored approval; name and contact come from the request |
| UserController.UpdateOwnProfile | Backend/user-service/src/main/java/com/tpbs/userservice/controller/UserController.java:170-220 | a refused call changes nothing; otherwise the user's own row is updated, keeping its approval and password, taking the headers' email and role; a taken email is 400 with the failure message |
| PackageMapper.ToDto | Backend/package-service/src/main/java/com/tpbs/packageservice/mapper/TravelPackageMapper.java:10-24 | a missing entity gives a missing record, and only then |
| PackageMapper.ToEntity | Backend/package-service/src/main/java/com/tpbs/packageservice/mapper/TravelPackageMapper.java:26-40 | a missing record gives a missing entity, and only then |
| PackageMapper.MappingsInverse | Backend/package-service/src/main/java/com/tpbs/packageservice/mapper/TravelPackageMapper.java:10-40 | the two copies are inverse to each other, field for field, in both directions |
| PackageMapper.Updated | Backend/package-service/src/main/java/com/tpbs/packageservice/mapper/TravelPackageMapper.java:42-53 | the updated entity keeps its id and otherwise matches the record field for field |
| PackageMapper.UpdateIdempotent | Backend/package-service/src/main/java/com/tpbs/packageservice/mapper/TravelPackageMapper.java:42-53 | a second update from the same record changes nothing, and an update from the entity's own record changes nothing |
| PackageMapper.PackageEntity.constructor | Backend/package-service/src/main/java/com/tpbs/packageservice/mapper/TravelPackageMapper.java:30-39 | the entity holds exactly the given row |
| PackageMapper.UpdateEntityFromDto | Backend/package-service/src/main/java/com/tpbs/packageservice/mapper/TravelPackageMapper.java:42-53 | with both present, the seven fields are set from the record and the id is left alone; with the record missing nothing changes |
| PackageService.Dto | Backend/package-service/src/main/java/com/tpbs/packageservice/service/impl/TravelPackageServiceImpl.java:48 | the record of a stored package converts back to that package |
| PackageService.ConfirmedCount | Backend/package-service/src/main/java/com/tpbs/packageservice/service/impl/TravelPackageServiceImpl.java:123-125 | the number of bookings whose status is the string "confirmed", the length of their filter, never more than the bookings |
| PackageService.AgentEntryOf | Backend/package-service/src/main/java/com/tpbs/packageservice/service/impl/TravelPackageServiceImpl.java:156-170 | the user service's data exactly when it answered; otherwise the "Agent <id>" placeholder |
| PackageService.UserInfo | Backend/package-service/src/main/java/com/tpbs/packageservice/service/impl/TravelPackageServiceImpl.java:193-216 | the user service's data exactly when it answered; otherwise the "Unknown User" placeholder |
| PackageService.PaymentInfo | Backend/package-service/src/main/java/com/tpbs/packageservice/service/impl/TravelPackageServiceImpl.java:218-242 | an answer that is not 2xx puts nothing; an exception, null data or a status that is not a string gives the "UNKNOWN" placeholder; otherwise the payment data |
| PackageService.EnrichBooking | Backend/package-service/src/main/java/com/tpbs/packageservice/service/impl/TravelPackageServiceImpl.java:189-244 | a booking is enriched exactly when its user and payment ids are null or numbers; it keeps its fields, gets its package, and gets user details exactly when it names a user |
| PackageService.FirstFailure | Backend/package-service/src/main/java/com/tpbs/packageservice/service/impl/TravelPackageServiceImpl.java:189-245 | every booking before the first that throws is enriched, and that one throws |
| PackageService.EnrichedPrefix | Backend/package-service/src/main/java/com/tpbs/packageservice/service/impl/TravelPackageServiceImpl.java:189-245 | the enrichments of the bookings before the first throw, in order |
| PackageService.PackageTally | Backend/package-service/src/main/java/com/tpbs/packageservice/service/impl/TravelPackageServiceImpl.java:179-255 | a package adds its confirmed and total counts only when its whole list went through, and adds nothing when its bookings cannot be fetched |
| PackageService.TallyStep | Backend/package-service/src/main/java/com/tpbs/packageservice/service/impl/TravelPackageServiceImpl.java:178 | one more package in the loop adds exactly that package's tally |
| PackageService.TalliesBounded | Backend/package-service/src/main/java/com/tpbs/packageservice/service/impl/TravelPackageServiceImpl.java:247-260 | confirmed never exceeds total, and total never exceeds the bookings gathered, so the pending figure is never negative |
| PackageService.FailedPackageSkipped | Backend/package-service/src/main/java/com/tpbs/packageservice/service/impl/TravelPackageServiceImpl.java:252-255 | a package whose bookings cannot be fetched leaves the statistics as if it were not there |
| PackageService.SameTalliesSnoc | Backend/package-service/src/main/java/com/tpbs/packageservice/service/impl/TravelPackageServiceImpl.java:178 | lists with the same tallies keep them when the same package follows both |
| PackageService.TalliesSnoc | Backend/package-service/src/main/java/com/tpbs/packageservice/service/impl/TravelPackageServiceImpl.java:178 | the tallies of a list with one more package add that package's tally |
| PackageService.AllAnsweredAllCounted | Backend/package-service/src/main/java/com/tpbs/packageservice/service/impl/TravelPackageServiceImpl.java:247 | when every fetch answers with a list and no booking throws, every gathered booking is counted |
| PackageService.PackageStore.constructor | Backend/package-service/src/main/java/com/tpbs/packageservice/service/impl/TravelPackageServiceImpl.java:27 | an empty repository whose first id is 1 |
| PackageService.PackageStore.All | Backend/package-service/src/main/java/com/tpbs/packageservice/service/impl/TravelPackageServiceImpl.java:33-40 | exactly the stored packages are listed |
| PackageService.PackageStore.ById | Backend/package-service/src/main/java/com/tpbs/packageservice/service/impl/TravelPackageServiceImpl.java:42-49 | the stored package exactly when the id is present, otherwise the not-found error |
| PackageService.PackageStore.ByAgent | Backend/package-service/src/main/java/com/tpbs/packageservice/service/impl/TravelPackageServiceImpl.java:51-58 | a package is listed exactly when it is stored and belongs to the agent |
| PackageService.PackageStore.Create | Backend/package-service/src/main/java/com/tpbs/packageservice/service/impl/TravelPackageServiceImpl.java:60-68 | the incoming id is cleared, so the package is stored under a fresh id with every other field as sent |
| PackageService.PackageStore.Update | Backend/package-service/src/main/java/com/tpbs/packageservice/service/impl/TravelPackageServiceImpl.java:70-81 | an unknown id changes nothing and fails; otherwise the stored entity takes the record's fields through the mapper and keeps its id |
| PackageService.PackageStore.Delete | Backend/package-service/src/main/java/com/tpbs/packageservice/service/impl/TravelPackageServiceImpl.java:83-91 | an unknown id changes nothing and fails; otherwise exactly that package is removed |
| PackageService.PackageStore.WithBookingDetails | Backend/package-service/src/main/java/com/tpbs/packageservice/service/impl/TravelPackageServiceImpl.java:101-141 | an unknown package gives only the error entry; a bad answer gives no bookings and zero counts; a list gives itself, its length as the total and its confirmed count; null data or an exception gives the error entry |
| PackageService.PackageStore.AgentStatisticsOf | Backend/package-service/src/main/java/com/tpbs/packageservice/service/impl/TravelPackageServiceImpl.java:143-267 | the agent's packages and their number, the agent entry, and the tallies of the packages in order, with pending equal to total less confirmed and never negative |
| PackageService.Max0 | Backend/package-service/src/main/java/com/tpbs/packageservice/service/impl/TravelPackageServiceImpl.java:260 | `Math.max(0, n)` is n when positive and 0 otherwise |
| PackageService.Gather | Backend/package-service/src/main/java/com/tpbs/packageservice/service/impl/TravelPackageServiceImpl.java:178-256 | the outer loop adds up the tallies of the packages in order |
| PackageService.OnePackage | Backend/package-service/src/main/java/com/tpbs/packageservice/service/impl/TravelPackageServiceImpl.java:179-255 | one pass of the outer loop gives that package's tally |
| PackageService.EnrichAll | Backend/package-service/src/main/java/com/tpbs/packageservice/service/impl/TravelPackageServiceImpl.java:189-245 | the inner loop enriches the bookings until the first throw and keeps the ones before it |
| PackageController.CheckPackage | Backend/package-service/src/main/java/com/tpbs/packageservice/controller/TravelPackageController.java:96-116 | a body passes exactly when title and duration are not blank and the price is positive; title, duration and price are reported in that order |
| PackageController.BlankTitleRefused | Backend/package-service/src/main/java/com/tpbs/packageservice/controller/TravelPackageController.java:97 | a title of spaces only is refused like a missing one |
| PackageController.GetPackage | Backend/package-service/src/main/java/com/tpbs/packageservice/controller/TravelPackageController.java:37-45 | the stored package exactly when the id is present; an unknown id is an uncaught 500 |
| PackageController.MyPackages | Backend/package-service/src/main/java/com/tpbs/packageservice/controller/TravelPackageController.java:57-74 | no token agent gives 401, and only then; otherwise exactly that agent's stored packages, in id order |
| PackageController.CreatePackage | Backend/package-service/src/main/java/com/tpbs/packageservice/controller/TravelPackageController.java:76-123 | no token agent gives 401; a failed check gives 400 and stores nothing; otherwise 201 with the package stored under a fresh id and owned by the token's agent |
| PackageController.OwnerGate | Backend/package-service/src/main/java/com/tpbs/packageservice/controller/TravelPackageController.java:133-149 | the call goes through exactly when the token names the agent who owns the stored package; no agent gives 401, an unknown id a 500, another owner 403 |
| PackageController.UpdatePackage | Backend/package-service/src/main/java/com/tpbs/packageservice/controller/TravelPackageController.java:125-182 | the ownership check comes before the body checks; a refused call changes nothing; otherwise the body, with the owner as agent, is stored over the package and the id stays |
| PackageController.DeletePackage | Backend/package-service/src/main/java/com/tpbs/packageservice/controller/TravelPackageController.java:184-214 | a refused call changes nothing; an owner's delete removes exactly that package |
| PackageController.MyPackagesWithStats | Backend/package-service/src/main/java/com/tpbs/packageservice/controller/TravelPackageController.java:247-264 | no token agent gives 401, and only then; otherwise 200 with that agent's packages and their number, the agent entry from its lookup, the bookings, total and confirmed count as the tallies of those packages, and pending the total less the confirmed |
| AssistanceService.BasicDto | Backend/assistance-service/src/main/java/com/tpbs/assistanceservice/service/impl/AssistanceRequestServiceImpl.java:73-87 | the plain record carries the request's own fields and no enrichment |
| AssistanceService.UserDetails | Backend/assistance-service/src/main/java/com/tpbs/assistanceservice/service/impl/AssistanceRequestServiceImpl.java:29-44 | a successful answer gives its data entry, which may be null; a failed or throwing call gives the unknown-user placeholder |
| AssistanceService.FirstPreferred | Backend/assistance-service/src/main/java/com/tpbs/assistanceservice/service/impl/AssistanceRequestServiceImpl.java:53-58 | the first booking whose status is the string CONFIRMED, ACTIVE or PENDING, with no earlier one preferred or failing the cast; none exactly when no status is preferred or non-string; an error exactly when a non-string, non-null status comes before any preferred one |
| AssistanceService.BookingDetails | Backend/assistance-service/src/main/java/com/tpbs/assistanceservice/service/impl/AssistanceRequestServiceImpl.java:46-71 | a missing, empty or failed booking list gives the placeholder booking; otherwise the first preferred booking, else the first booking; a status cast that throws gives the placeholder |
| AssistanceService.SelectionOfCleanList | Backend/assistance-service/src/main/java/com/tpbs/assistanceservice/service/impl/AssistanceRequestServiceImpl.java:53-71 | for a non-empty list whose statuses are all strings or null, the first preferred booking is chosen, and the first booking when none is preferred |
| AssistanceService.LowerCaseStatusesPickFirst | Backend/assistance-service/src/main/java/com/tpbs/assistanceservice/service/impl/AssistanceRequestServiceImpl.java:53-59 | with statuses in the booking service's lower case, the first booking of the list is always chosen |
| AssistanceService.BookingIdOf | Backend/assistance-service/src/main/java/com/tpbs/assistanceservice/service/impl/AssistanceRequestServiceImpl.java:103-109 | the id is taken from bookingId, from id only when bookingId is null, and kept only when it is a number |
| AssistanceService.DetailsOf | Backend/assistance-service/src/main/java/com/tpbs/assistanceservice/service/impl/AssistanceRequestServiceImpl.java:91-116 | throws exactly when one of the user name, email or contact (with a user map) or the booking package name, destination, dates or status is neither a string nor null; otherwise each detail is that field cast to a string, the user ones empty without a user map, and the booking id is BookingIdOf |
| AssistanceService.PlaceholdersEnrich | Backend/assistance-service/src/main/java/com/tpbs/assistanceservice/service/impl/AssistanceRequestServiceImpl.java:39-43 | the two placeholders enrich without throwing: Unknown User, unknown@example.com, N/A, booking 0, status Unknown |
| AssistanceService.Enhanced | Backend/assistance-service/src/main/java/com/tpbs/assistanceservice/service/impl/AssistanceRequestServiceImpl.java:88-119 | succeeds exactly when DetailsOf of the user lookup and the chosen booking succeeds, with the request and those details; both lookups failing gives the placeholder details |
| AssistanceService.EnhancedAll | Backend/assistance-service/src/main/java/com/tpbs/assistanceservice/service/impl/AssistanceRequestServiceImpl.java:138 | the list enriches exactly when every request does, element by element and in order |
| AssistanceService.WithFallback | Backend/assistance-service/src/main/java/com/tpbs/assistanceservice/service/impl/AssistanceRequestServiceImpl.java:136-143 | one answer per request, in order; all enriched, or all basic when any enrichment throws |
| AssistanceService.OneThrowAllBasic | Backend/assistance-service/src/main/java/com/tpbs/assistanceservice/service/impl/AssistanceRequestServiceImpl.java:139-141 | a single failing enrichment makes every record of the list basic |
| AssistanceService.WithDefaults | Backend/assistance-service/src/main/java/com/tpbs/assistanceservice/service/impl/AssistanceRequestServiceImpl.java:165-173 | status pending, priority medium and both dates now when absent; an absent description becomes subject ": " message when both exist; present fields are kept |
| AssistanceService.DefaultsKeepGivenFields | Backend/assistance-service/src/main/java/com/tpbs/assistanceservice/service/impl/AssistanceRequestServiceImpl.java:167-173 | a request that already has status, priority, dates and description is saved unchanged |
| AssistanceService.Overwritten | Backend/assistance-service/src/main/java/com/tpbs/assistanceservice/service/impl/AssistanceRequestServiceImpl.java:180-189 | the partial update keeps the id and user and takes each present field of the body |
| AssistanceService.UpdateIdempotent | Backend/assistance-service/src/main/java/com/tpbs/assistanceservice/service/impl/AssistanceRequestServiceImpl.java:180-189 | applying the same update twice is applying it once |
| AssistanceService.EmptyUpdateKeeps | Backend/assistance-service/src/main/java/com/tpbs/assistanceservice/service/impl/AssistanceRequestServiceImpl.java:180-189 | an update with no present field changes nothing |
| AssistanceService.AssistanceStore.All | Backend/assistance-service/src/main/java/com/tpbs/assistanceservice/service/impl/AssistanceRequestServiceImpl.java:136-143 | one record per stored request, in id order |
| AssistanceService.AssistanceStore.ById | Backend/assistance-service/src/main/java/com/tpbs/assistanceservice/service/impl/AssistanceRequestServiceImpl.java:146-153 | a record exactly when the id is stored, of that request; basic when the enrichment throws |
| AssistanceService.AssistanceStore.OfUser | Backend/assistance-service/src/main/java/com/tpbs/assistanceservice/service/impl/AssistanceRequestServiceImpl.java:158 | exactly the stored requests of that user |
| AssistanceService.AssistanceStore.ByUser | Backend/assistance-service/src/main/java/com/tpbs/assistanceservice/service/impl/AssistanceRequestServiceImpl.java:156-163 | one record per request of the user, in id order |
| AssistanceService.AssistanceStore.Create | Backend/assistance-service/src/main/java/com/tpbs/assistanceservice/service/impl/AssistanceRequestServiceImpl.java:164-176 | the defaulted request is stored under the save key, the next id advances only for a fresh key, and the answer is its enrichment |
| AssistanceService.AssistanceStore.Update | Backend/assistance-service/src/main/java/com/tpbs/assistanceservice/service/impl/AssistanceRequestServiceImpl.java:179-192 | an answer exactly when the id is stored; the overwritten request replaces it and is answered basic; an unknown id changes nothing |
| AssistanceService.AssistanceStore.UpdateStatus | Backend/assistance-service/src/main/java/com/tpbs/assistanceservice/service/impl/AssistanceRequestServiceImpl.java:195-200 | only the status changes, to the given value, which may be null; an unknown id changes nothing |
| AssistanceService.AssistanceStore.Resolve | Backend/assistance-service/src/main/java/com/tpbs/assistanceservice/service/impl/AssistanceRequestServiceImpl.java:203-210 | status completed, resolution time now and the note; an unknown id changes nothing |
| AssistanceService.AssistanceStore.Delete | Backend/assistance-service/src/main/java/com/tpbs/assistanceservice/service/impl/AssistanceRequestServiceImpl.java:213-215 | exactly that id leaves the store; an unknown id is ignored |
| ReviewService.BasicDto | Backend/review-service/src/main/java/com/tpbs/reviewservice/service/impl/ReviewServiceImpl.java:31-55 | the plain record carries the review's own fields and no details, so reading the entity back gives the review |
| ReviewService.BookedIn | Backend/review-service/src/main/java/com/tpbs/reviewservice/service/impl/ReviewServiceImpl.java:89-90 | true only for a package id some booking carries; when every booking has a numeric package id, true exactly when one matches |
| ReviewService.Booked | Backend/review-service/src/main/java/com/tpbs/reviewservice/service/impl/ReviewServiceImpl.java:84-96 | a failed or non-2xx lookup or a null list counts as not booked; otherwise the answer of the list check |
| ReviewService.NoBookingsNoReview | Backend/review-service/src/main/java/com/tpbs/reviewservice/service/impl/ReviewServiceImpl.java:84-96 | a user with an empty booking list may review nothing |
| ReviewService.DataOf | Backend/review-service/src/main/java/com/tpbs/reviewservice/service/impl/ReviewServiceImpl.java:58-81 | data only from a successful answer |
| ReviewService.Enhanced | Backend/review-service/src/main/java/com/tpbs/reviewservice/service/impl/ReviewServiceImpl.java:99-118 | succeeds exactly when every name, email and destination field of the lookups that gave data holds a string or null; each detail is that field cast to a string, empty when its lookup gave no data; the review is kept; with neither lookup giving data the record is the basic one |
| ReviewService.EnhancedAt | Backend/review-service/src/main/java/com/tpbs/reviewservice/service/impl/ReviewServiceImpl.java:129-136 | the rows at a list of keys enrich exactly when each one does, record by record |
| ReviewService.EnhancedAll | Backend/review-service/src/main/java/com/tpbs/reviewservice/service/impl/ReviewServiceImpl.java:130 | the list enriches exactly when every review does, element by element and in order |
| ReviewService.Overwritten | Backend/review-service/src/main/java/com/tpbs/reviewservice/service/impl/ReviewServiceImpl.java:155-161 | only rating, comment and reply can change; a non-zero rating and each present text replace the stored ones |
| ReviewService.OverwriteLaws | Backend/review-service/src/main/java/com/tpbs/reviewservice/service/impl/ReviewServiceImpl.java:157-159 | an update with rating 0 and no texts changes nothing, and applying an update twice is applying it once |
| ReviewService.ReviewStore.All | Backend/review-service/src/main/java/com/tpbs/reviewservice/service/impl/ReviewServiceImpl.java:121-123 | every stored review, basic, in id order |
| ReviewService.ReviewStore.ById | Backend/review-service/src/main/java/com/tpbs/reviewservice/service/impl/ReviewServiceImpl.java:126-128 | a record exactly when the id is stored, the basic one of that review |
| ReviewService.ReviewStore.Where | Backend/review-service/src/main/java/com/tpbs/reviewservice/service/impl/ReviewServiceImpl.java:130 | exactly the stored reviews that satisfy the filter, in ascending id order |
| ReviewService.ReviewStore.ByUser | Backend/review-service/src/main/java/com/tpbs/reviewservice/service/impl/ReviewServiceImpl.java:129-131 | succeeds exactly when every review of that user, taken in id order, enriches; then one record per such review, each its enrichment, and they are exactly that user's reviews |
| ReviewService.ReviewStore.ByPackage | Backend/review-service/src/main/java/com/tpbs/reviewservice/service/impl/ReviewServiceImpl.java:134-136 | succeeds exactly when every review of that package, taken in id order, enriches; then one record per such review, each its enrichment, and they are exactly that package's reviews |
| ReviewService.ReviewStore.Add | Backend/review-service/src/main/java/com/tpbs/reviewservice/service/impl/ReviewServiceImpl.java:139-152 | not booked: the error message and nothing stored; booked: stored under the save key with timestamp now when absent, next id advanced only for a fresh key, and answered enhanced |
| ReviewService.ReviewStore.Update | Backend/review-service/src/main/java/com/tpbs/reviewservice/service/impl/ReviewServiceImpl.java:155-162 | an answer exactly when the id is stored; the overwritten review replaces it and is answered basic; an unknown id changes nothing |
| ReviewService.ReviewStore.AddAgentReply | Backend/review-service/src/main/java/com/tpbs/reviewservice/service/impl/ReviewServiceImpl.java:165-170 | only the reply changes, to the given value; an unknown id changes nothing |
| ReviewService.ReviewStore.Delete | Backend/review-service/src/main/java/com/tpbs/reviewservice/service/impl/ReviewServiceImpl.java:173-175 | exactly that id leaves the store; an unknown id is ignored |
| ReviewController.CheckReview | Backend/review-service/src/main/java/com/tpbs/reviewservice/controller/ReviewController.java:66-85 | a review passes exactly when it names a package, rates 1 to 5 and has a non-blank comment; package, rating and comment are reported in that order |
| ReviewController.MissingRatingRefused | Backend/review-service/src/main/java/com/tpbs/reviewservice/controller/ReviewController.java:73 | a body without a rating carries 0 and is refused as out of range |
| ReviewController.AddReview | Backend/review-service/src/main/java/com/tpbs/reviewservice/controller/ReviewController.java:47-105 | no token user gives 401; a failed check gives 400 with its message; a review of an unbooked package gives 400 with the service's message; a booked one is stored under the save key with the token's user and the clock's timestamp when none was sent, and answered 200 with its enrichment, or 500 when that throws; every refusal before the save changes nothing |
| ReviewController.GetReview | Backend/review-service/src/main/java/com/tpbs/reviewservice/controller/ReviewController.java:31-35 | 200 with the stored review exactly when the id is present, otherwise 404 |
| ReviewController.UpdateReview | Backend/review-service/src/main/java/com/tpbs/reviewservice/controller/ReviewController.java:107-111 | 200 exactly when the id is stored, with the overwritten review saved; otherwise 404 and nothing changes |
| ReviewController.AddAgentReply | Backend/review-service/src/main/java/com/tpbs/reviewservice/controller/ReviewController.java:113-117 | 200 exactly when the id is stored, with only the reply replaced; otherwise 404 and nothing changes |
| ReviewController.DeleteReview | Backend/review-service/src/main/java/com/tpbs/reviewservice/controller/ReviewController.java:119-125 | a stored id is removed and answered 204; an unknown id is 404 and nothing changes |
| InsuranceService.DaysInMonth | Backend/insurance-service/src/main/java/com/tpbs/insuranceservice/service/impl/InsuranceServiceImpl.java:112 | a month has 28 to 31 days, and February has 29 exactly in a leap year |
| InsuranceService.PlusOneYear | Backend/insurance-service/src/main/java/com/tpbs/insuranceservice/service/impl/InsuranceServiceImpl.java:112 | the same month one year later; the day changes only for 29 February before a non-leap year, and then to 28 |
| InsuranceService.RenewalExtends | Backend/insurance-service/src/main/java/com/tpbs/insuranceservice/service/impl/InsuranceServiceImpl.java:112 | the renewed end date lies after the old one |
| InsuranceService.LeapDayRenewal | Backend/insurance-service/src/main/java/com/tpbs/insuranceservice/service/impl/InsuranceServiceImpl.java:112 | 29 February 2024 renews to 28 February 2025 |
| InsuranceService.PolicyNumber | Backend/insurance-service/src/main/java/com/tpbs/insuranceservice/service/impl/InsuranceServiceImpl.java:224-226 | the number is POL- followed by digits that read back as the clock reading |
| InsuranceService.PolicyNumbersDiffer | Backend/insurance-service/src/main/java/com/tpbs/insuranceservice/service/impl/InsuranceServiceImpl.java:224-226 | different clock readings give different policy numbers |
| InsuranceService.Overwritten | Backend/insurance-service/src/main/java/com/tpbs/insuranceservice/service/impl/InsuranceServiceImpl.java:77-82 | the six copied fields come from the body, null included; id, user, booking, policy number and status stay |
| InsuranceService.LastUpdateWins | Backend/insurance-service/src/main/java/com/tpbs/insuranceservice/service/impl/InsuranceServiceImpl.java:73-86 | of two updates only the last shows, so repeating one changes nothing |
| InsuranceService.UpdateKeepsStatus | Backend/insurance-service/src/main/java/com/tpbs/insuranceservice/service/impl/InsuranceServiceImpl.java:77-82 | an update leaves a cancelled policy cancelled |
| InsuranceService.Benefits | Backend/insurance-service/src/main/java/com/tpbs/insuranceservice/service/impl/InsuranceServiceImpl.java:211-222 | BASIC, PREMIUM and COMPREHENSIVE have 3, 5 and 7 benefits; any other type has none |
| InsuranceService.BenefitsNested | Backend/insurance-service/src/main/java/com/tpbs/insuranceservice/service/impl/InsuranceServiceImpl.java:213-218 | each richer policy keeps every benefit of the one below it, in order |
| InsuranceService.MakeQuote | Backend/insurance-service/src/main/java/com/tpbs/insuranceservice/service/impl/InsuranceServiceImpl.java:202-209 | the quote carries the type, premium, coverage and that type's benefits |
| InsuranceService.Quotes | Backend/insurance-service/src/main/java/com/tpbs/insuranceservice/service/impl/InsuranceServiceImpl.java:180-200 | three fixed quotes (50, 100 and 200 premium; 10000, 25000 and 50000 coverage, in cents here) when the booking answers with a body; none when it does not or the call throws |
| InsuranceService.QuotesGrow | Backend/insurance-service/src/main/java/com/tpbs/insuranceservice/service/impl/InsuranceServiceImpl.java:190-192 | down the quotes premium, coverage and benefits all grow, and each quote's benefits extend the previous one's |
| InsuranceService.WithBooking | Backend/insurance-service/src/main/java/com/tpbs/insuranceservice/service/impl/InsuranceServiceImpl.java:125-141 | the policy with the booking's data when the answer has a body, no entry when it has none, a null entry when the call throws |
| InsuranceService.InsuranceStore.All | Backend/insurance-service/src/main/java/com/tpbs/insuranceservice/service/impl/InsuranceServiceImpl.java:33-37 | exactly the stored policies |
| InsuranceService.InsuranceStore.ById | Backend/insurance-service/src/main/java/com/tpbs/insuranceservice/service/impl/InsuranceServiceImpl.java:41-45 | the stored policy exactly when the id is present, otherwise the not-found error |
| InsuranceService.InsuranceStore.ByUser | Backend/insurance-service/src/main/java/com/tpbs/insuranceservice/service/impl/InsuranceServiceImpl.java:49-53 | exactly the stored policies of that user |
| InsuranceService.InsuranceStore.ByBooking | Backend/insurance-service/src/main/java/com/tpbs/insuranceservice/service/impl/InsuranceServiceImpl.java:57-61 | exactly the stored policies of that booking |
| InsuranceService.InsuranceStore.Create | Backend/insurance-service/src/main/java/com/tpbs/insuranceservice/service/impl/InsuranceServiceImpl.java:64-70 | issued ACTIVE under a POL- number from the clock whatever the body said, stored under the save key, the next id advanced only for a fresh key |
| InsuranceService.InsuranceStore.Update | Backend/insurance-service/src/main/java/com/tpbs/insuranceservice/service/impl/InsuranceServiceImpl.java:73-86 | stored ids get the overwritten policy; unknown ids give the not-found error and change nothing |
| InsuranceService.InsuranceStore.Delete | Backend/insurance-service/src/main/java/com/tpbs/insuranceservice/service/impl/InsuranceServiceImpl.java:89-94 | stored ids are removed; unknown ids give the not-found error and change nothing |
| InsuranceService.InsuranceStore.Cancel | Backend/insurance-service/src/main/java/com/tpbs/insuranceservice/service/impl/InsuranceServiceImpl.java:97-104 | only the status changes, to CANCELLED; unknown ids give the not-found error |
| InsuranceService.InsuranceStore.Renew | Backend/insurance-service/src/main/java/com/tpbs/insuranceservice/service/impl/InsuranceServiceImpl.java:107-117 | the end date moves a year on and the status becomes ACTIVE, even for a cancelled policy; an unknown id or a missing end date is an error and changes nothing |
| InsuranceService.InsuranceStore.Details | Backend/insurance-service/src/main/java/com/tpbs/insuranceservice/service/impl/InsuranceServiceImpl.java:149-176 | an unknown id gives only the error entry; otherwise the policy, then the booking and user entries put before any exception, with the error entry exactly when a call threw |
| InsuranceService.UserPoliciesWithBookings | Backend/insurance-service/src/main/java/com/tpbs/insuranceservice/service/impl/InsuranceServiceImpl.java:121-145 | one entry per policy of the user, in order, each with its booking entry |
| Gateway.GetFirst | Backend/api-gateway/src/main/java/com/tpbs/apigateway/filter/JwtAuthenticationGatewayFilterFactory.java:34 | a value exactly when some header has the name, ignoring case, and then a value that header carries |
| Gateway.GetFirstIsFirstValue | Backend/api-gateway/src/main/java/com/tpbs/apigateway/filter/JwtAuthenticationGatewayFilterFactory.java:34 | the first value is the head of all the values under the name, and is missing exactly when there are none |
| Gateway.SetHeaderValues | Backend/api-gateway/src/main/java/com/tpbs/apigateway/filter/JwtAuthenticationGatewayFilterFactory.java:57-61 | after setting a header its name carries exactly the value set, and every other name keeps all its values |
| Gateway.BearerToken | Backend/api-gateway/src/main/java/com/tpbs/apigateway/filter/JwtAuthenticationGatewayFilterFactory.java:34-41 | a token exactly when the first Authorization value starts with "Bearer ", and then the rest of that value |
| Gateway.WithIdentity | Backend/api-gateway/src/main/java/com/tpbs/apigateway/filter/JwtAuthenticationGatewayFilterFactory.java:57-61 | setting the identity headers keeps the path |
| Gateway.Caller | Backend/api-gateway/src/main/java/com/tpbs/apigateway/filter/JwtAuthenticationGatewayFilterFactory.java:36-68 | a caller exactly when there is a bearer token, it validates, its claims can be read and the id claim is present; then the token's claims |
| Gateway.Apply | Backend/api-gateway/src/main/java/com/tpbs/apigateway/filter/JwtAuthenticationGatewayFilterFactory.java:24-69 | a public path passes untouched; any other is forwarded exactly when there is a caller and is otherwise answered 401; a forwarded request keeps its path |
| Gateway.XUserNamesDistinct | Backend/api-gateway/src/main/java/com/tpbs/apigateway/filter/JwtAuthenticationGatewayFilterFactory.java:58-60 | the three identity header names differ, ignoring case |
| Gateway.ForwardedIdentity | Backend/api-gateway/src/main/java/com/tpbs/apigateway/filter/JwtAuthenticationGatewayFilterFactory.java:50-63 | a forwarded protected request carries exactly one value in each identity header, the token's own, whatever the client sent, and every other header unchanged |
| Gateway.NoHeaderNoEntry | Backend/api-gateway/src/main/java/com/tpbs/apigateway/filter/JwtAuthenticationGatewayFilterFactory.java:34-39 | a protected request without an Authorization header is never forwarded |
| Gateway.LowerCaseSchemeRefused | Backend/api-gateway/src/main/java/com/tpbs/apigateway/filter/JwtAuthenticationGatewayFilterFactory.java:36 | a lower-case "bearer" scheme is refused |

## Left out

- Floating point:
  - The admin dashboard's revenue sum adds doubles (Frontend/src/pages/AdminDashboard.jsx:79). It is an integer sum of cents here.
  - The package service's revenue statistics (Backend/package-service/src/main/java/com/tpbs/packageservice/service/impl/TravelPackageServiceImpl.java:175-236) are not modelled.
  - The average rating is not modelled; its division is in floating point.
  - The package price carried through a `double` is not modelled; the model keeps integer cents.
  - `toFixed` display formatting is not modelled; it is display only.
- JSON numbers are integral in the model (`JNum` carries an `int`), and Java `Long` overflow is not modelled. Ids and amounts stay far inside the range.
- ReviewService.Enhanced: the `(Double) packageDetails.get("price")` cast (Backend/review-service/src/main/java/com/tpbs/reviewservice/service/impl/ReviewServiceImpl.java:114) is not modelled. Jackson reads an integral price such as `1200` as an `Integer`, so there the cast throws a ClassCastException; the model reads every price as a number.
- Repository order: `findAll` and the derived `findBy…` queries carry no ORDER BY, so the database may list rows in any order. The model lists them in ascending key order (`Table.Listing`).
- Search:
  - The agent's and the public package search run a JPQL `LIKE` query inside the database.
  - The search endpoints (TravelPackageController.java:216-224) only forward that query.
  - Neither is modelled.
- JwtUtil's signing, parsing and expiry are cryptography and clock. They are taken as parameters: `validate` and `claims` in `Gateway`, a token user id in the controllers.
- The thin AssistanceRequestController, InsuranceController and AuthController only forward to the services modelled here. They are not part of this model.
- Database constraints and the `@Valid` bean-validation annotations on transfer objects are enforced by the framework. They are not modelled.
- Clocks:
  - "now" is a parameter of every operation that reads the clock.
  - `@PrePersist` and `@PreUpdate` timestamps are set by the framework and are not modelled.
- UserController.UpdateOwnProfile parses the header id, which can give a 400, before it looks the user up, which can give a 404. The model keeps that order.
- ReviewController.AddReview answers 200 on success, not 201, because the source does.
- UserService.UserStore.Create keeps the approval status the body sent, which may be null, because the source does.
- Unknown ids in the controllers' update, delete and cancel endpoints make the service throw with no handler. The model answers the resulting 500 (`Crashed`), as the source does.
- PaymentService.PaymentStore.Process: the catch branch that records FAILED cannot be reached in the model. No step before it can throw once the checks pass.
- Enrichment after a save: when enriching the saved record throws, the row stays saved while the call fails. This mirrors the source's missing transaction rollback.
- Assistance and review deletion: in AssistanceService and ReviewService, deleting an unknown id is ignored, as `deleteById` does.
- InsuranceService: `createdAt` and `updatedAt` are not modelled, since the framework sets them. Dates are checked calendar dates; the year range of `LocalDate` is not modelled.
- Gateway: null e-mail or role claims are not modelled. The filter would set a null header value, which the framework refuses.
- Gateway.Caller: a missing user id claim gives 401 because `toString` on null throws inside the filter's try block.
- Gateway.BearerToken matches "Bearer " with case, as the source does. Section 2.1 of RFC 7235 makes the scheme name case-insensitive.
- AssistancePage: the next RequestID over an empty list is `Math.max()` of nothing, -Infinity, and -Infinity + 1 stays -Infinity. The model returns that value (`NegInfinity`), stores it, and treats it as the least number in later maxima, as the source does. How JSON would write it (as null) is not modelled. A RequestID of null, which `Math.max` reads as 0, is not modelled either: a stored id is a number, -Infinity, or missing (NaN).
- AssistancePage.StatusClass and AssistancePage.PriorityClass: a status or priority that names a member of `Object.prototype`, such as "constructor" or "toString", finds that inherited member in the source's class table. The member is truthy, so the class text becomes the member's string form instead of the pending or medium default. The model gives the default.
- UserController.UserById: the `{success: true, data}` map the answer is sent in is not modelled. The model answers the user's public fields themselves.
- AppRoutes: the router matches ignoring ASCII case and trailing slashes, as modelled. Its percent-decoding of paths is not modelled; the route table uses no nested routes or dynamic segments.
- ReviewsPage: a review whose Rating is null, which `+` reads as 0, is not told apart from one with no Rating, which gives NaN.
- DashboardData: the dedicated agent endpoint's body is passed on as it came, still wrapped; the pages that read it are not part of this model. The TypeError's message is a parameter, `typeError`.
- UserService.ApprovalFor compares roles by folding ASCII letters only. Java's `equalsIgnoreCase` also folds other letters, so a role such as "admın" (dotless ı) or "cuſtomer" (long s) is approved there and left pending here.
- UserModel.Authority upper-cases ASCII letters only. Java's `toUpperCase` also maps other letters, some to two ("ß" to "SS"), so there the authority need not be 5 longer than the role.
- UserModel.AuthorityIgnoresCase covers roles that differ in ASCII case only, for the same reason.
- UserModel.ApprovalDecidesEnabled compares the approval by folding ASCII letters only, where Java's `equalsIgnoreCase` folds all letters.
- UserController.AdminGate, and the `IsAdmin` and `IsAdminOrAgent` predicates it uses, fold ASCII letters only. Java's `equalsIgnoreCase` also admits a role header such as "admın".
- ParseLong accepts ASCII digits only. `Long.parseLong` also accepts the other Unicode decimal digits, and it refuses values outside the 64-bit range, which are accepted here.
- ParseInt values beyond 2^53 are exact here. JavaScript rounds them to the nearest double.
- SuggestedEnd adds whole days to a calendar date. The browser's `setDate` works in local time, so across a daylight-saving change its date can come out one day off.
- A missing Authorization header is answered 400 by Spring before the handler runs, because the header parameter is required in PackageController, BookingController, ReviewController and PaymentController. The model folds this case into the handler's own 401 for a missing token user. At the gateway such a request is refused first (`Gateway.NoHeaderNoEntry`).
- LexLeqTotal and LexLeqTransitive are facts about character-code order. They feed `CodeUnitCollation` only; the title sort itself is proved for any consistent collation.
- PackagesPage: the browser's `localeCompare` collation table is not modelled. The sort is proved for any consistent collation, and `CodeUnitCollation` is one example of such a collation.
- Client flows not modelled:
  - SignIn's forgot-password flow (Frontend/src/pages/SignIn.jsx:78-99) and its location-state toast (20-26);
  - Profile's placeholder loading (Frontend/src/pages/Profile.jsx:85-128) and its refresh timer (168-170);
  - UserDashboard's `loadUserData` (Frontend/src/pages/UserDashboard.jsx:25-57);
  - toasts, timers and console logging;
  - the display-only lookups `getUserById`, `getPackageById` and `getInsuranceByBookingId`;
  - the admin dashboard's `refreshData`.
- The booking-payment update endpoint (`updateBookingPayment`, BookingController.java:239-260) calls a service method that BookingServiceImpl does not define, so it is not modelled.
- Thin list and lookup endpoints that only wrap a service call modelled here are not modelled separately.
- UserController endpoints not modelled:
  - `getUserByEmail`;
  - `getUsersByRole`;
  - pending approvals;
  - the counts by role and the pending count;
  - the debug-headers endpoint;
  - the internal lookup.
  
  The matching UserServiceImpl queries are not modelled either. Each is a single repository query.
- The client not modelled:
  - the thin service-client wrappers;
  - AgentDashboard, Landing, Footer and Notification;
  - all markup and styling.

## Findings

| source | as written | input that shows it | evidently intended | confidence | as-written member | corrected member |
|---|---|---|---|---|---|---|
| Frontend/src/pages/Assistance.jsx:26 | reads `currentUser.UserID` before the `!isAuthenticated` return at line 92 | a visitor who is not signed in (`currentUser` null) | the sign-in prompt, with no crash | not executed | AssistancePage.SignedOutVisitorCrashes | AssistancePage.NeverCrashesInValidSession |
| Frontend/src/pages/Packages.jsx:179 | the payment handler reads the dates from the `#startDate` and `#endDate` inputs, which exist only while the booking form is shown, and the booking step closes that form before the payment form opens (modelled by `PackagesPage.Page.SubmitPaymentAsWritten`) | any card that passes every check, submitted from the payment form | the dates kept in the booking form's state, so the booking and payment are recorded | not executed | PackagesPage.AsWrittenNeverPaysAfterBooking | PackagesPage.Page.SubmitPayment |
| Frontend/src/pages/Reviews.jsx:84 | appends `result.data`, which is the create endpoint's `{success: true, data: review}` body and not the review (modelled by `ReviewsPage.Page.SubmitReviewAsWritten`) | any successful review submission | the created review, `result.data.data`, appended, so it shows its stars and comment and the average stays a number | not executed | ReviewsPage.AppendedEnvelopeHasNoRating | ReviewsPage.Page.SubmitReview |
| Frontend/src/services/index.js:72-81 | calls `.map` and `.filter` on `result.data`, which is the backend's `{data: list, success: true}` wrapper and not an array (modelled by `DashboardData.AgentDashboardDataAsWritten`) | the dedicated agent endpoint failing while the agent's packages call succeeds | each body unwrapped one level before filtering, so the fallback shows the agent's lists | not executed | DashboardData.WrappedFallbackFails | DashboardData.AgentDashboardData |
