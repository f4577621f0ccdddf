# Corporate management system — API core in Dafny

This project models the server side of a small corporate management system.
The API handlers authenticate a bearer token against stored sessions, then
read or change a handful of tables: users, sessions, expenses and company
cards, jobs, timesheets (shifts) with location samples, and survey templates
with their questions, responses and answers.

The model keeps the handlers' structure:

- **Tables.** The database is one `Database` class (module `Store`) with a
  field per table: a `map` from id to row, or a `seq` for append-only logs.
  Each handler is a `method` that `modifies` only the tables it writes.
- **Replies.** A reply is `Reply(status, message, body)`.
- **Handler contracts.** Each handler's whole effect is stated by a predicate
  over the old and new tables (`CreateEffect`, `ClockInEffect`, …). A `Facts`
  lemma then derives what the handler promises: when it succeeds, what it
  adds, and that a refusal changes nothing.
- **List endpoints.** These are pure functions. The SQL `WHERE` clause each
  handler builds is modelled as numbered conditions plus a parameter list
  (module `Query`). The rows are selected, ordered by the `ORDER BY` key and
  cut to the `LIMIT`/`OFFSET` window (module `Listing`). Lemmas relate the
  selected rows to an independent "visible" predicate that reads like the
  handler's intent.
- **Tokens.** A token is three base64 parts: a fixed header, JSON claims and a
  fixed signature. Module `Base64` models `btoa` and forgiving `atob`; module
  `Claims` models the JSON of the claims object, with strings escaped as
  `JSON.stringify` escapes them. The login → verify round
  trip is proved: a freshly issued token is accepted within its week.

## Model

| member | source | states |
|---|---|---|
| Common.Fail | src/app/api/utils/auth.js:108-113 | an error reply is never a success, carries no body and keeps its message |
| Common.Done | src/app/api/auth/login/route.js:79-93 | a 2xx reply is a success carrying exactly the given body |
| Strings.Split | src/app/api/utils/auth.js:19 | `split('.')` always yields at least one part |
| Strings.Prefix | src/app/api/utils/auth.js:32 | `substring(0, n)` is the first `min(n, len)` characters of the string |
| Strings.Lower | src/app/api/auth/login/route.js:17-21 | lower-casing keeps the length and maps each character independently |
| Strings.SplitFreePrefix | src/app/api/utils/auth.js:19 | a separator-free prefix is glued onto the first part of the split |
| Strings.SplitAt | src/app/api/utils/auth.js:19 | splitting at a separator after a separator-free part yields that part and then the split of the rest |
| Strings.SplitFree | src/app/api/utils/auth.js:19 | a string without the separator splits into itself alone |
| Strings.SplitThree | src/app/api/utils/auth.js:19-22 | three separator-free parts joined with dots split back into exactly those three parts |
| Strings.SplitCount | src/app/api/utils/auth.js:19-22 | the number of parts is one more than the number of separators |
| Strings.JoinSplit | src/app/api/utils/auth.js:19 | joining the parts with the separator gives back the original string |
| Base64.CharOf | src/app/api/utils/auth.js:32 | every 6-bit value has an alphabet character that decodes back to it |
| Base64.ToBytes | src/app/api/utils/auth.js:24 | a binary string becomes as many bytes as it has characters |
| Base64.FromBytes | src/app/api/utils/auth.js:24 | bytes become a binary string of the same length |
| Base64.Btoa | src/app/api/utils/auth.js:32 | `btoa` succeeds exactly on strings whose characters are all below 256 |
| Base64.Atob | src/app/api/utils/auth.js:24 | whatever `atob` returns is a binary string |
| Base64.DecodeGroup | src/app/api/utils/auth.js:24 | the first four characters of an encoding decode to the first three bytes, and the rest is the encoding of the remaining bytes |
| Base64.EncodeRawAlphabet | src/app/api/utils/auth.js:32 | unpadded encoding uses only alphabet characters |
| Base64.EncodeRawLength | src/app/api/utils/auth.js:32 | unpadded encoding has 4 characters per 3 bytes plus 2 or 3 for a partial group |
| Base64.EncodeRawShape | src/app/api/utils/auth.js:32 | unpadded encoding is in the alphabet and never has length 1 mod 4, so it is decodable |
| Base64.DecodeShort | src/app/api/utils/auth.js:24 | a one- or two-byte tail decodes back to itself |
| Base64.DecodeStep | src/app/api/utils/auth.js:24 | decoding consumes four characters into three bytes and continues on the rest |
| Base64.EncodedLengthMod | src/app/api/utils/auth.js:32 | no byte count gives an encoding length of 1 mod 4 |
| Base64.DecodeEncodeGroup | src/app/api/utils/auth.js:24-32 | if the tail round-trips, then the whole byte string round-trips |
| Base64.DecodeEncodeRaw | src/app/api/utils/auth.js:24-32 | decoding the unpadded encoding of any bytes gives those bytes back |
| Base64.NoWhitespaceStrip | src/app/api/utils/auth.js:24 | `atob`'s whitespace stripping leaves alphabet-and-padding text unchanged |
| Base64.PaddingStrips | src/app/api/utils/auth.js:24 | stripping the `=` padding recovers the unpadded encoding |
| Base64.DecodeEncode | src/app/api/utils/auth.js:24-32 | `atob` of the padded encoding of any bytes gives the corresponding binary string |
| Base64.BytesRoundTrip | src/app/api/utils/auth.js:24 | a binary string converted to bytes and back is unchanged |
| Base64.AtobBtoa | src/app/api/utils/auth.js:24-32 | for every binary string, `atob(btoa(s)) == s` |
| Base64.EncodeChars | src/app/api/utils/auth.js:32 | the padded encoding contains only alphabet characters and `=` |
| Base64.BtoaOutput | src/app/api/utils/auth.js:19-32 | `btoa` output contains no `.` and is itself binary, so token parts split cleanly and can be hashed |
| Base64.BinaryConcat | src/app/api/utils/auth.js:32 | concatenating binary strings gives a binary string |
| Base64.EncodeLength | src/app/api/utils/auth.js:32 | the padded encoding has length `4 * ceil(n / 3)` |
| Claims.Digit | src/app/api/auth/login/route.js:57-62 | each decimal digit value has a digit character with that value |
| Claims.DigitRun | src/app/api/utils/auth.js:24 | the digit run found is a prefix of digits followed by a non-digit or the end |
| Claims.NatTextDigits | src/app/api/auth/login/route.js:57-62 | a number is printed as a non-empty run of digits |
| Claims.NatTextValue | src/app/api/auth/login/route.js:57-62 | the printed digits read back as the same number |
| Claims.DigitRunOf | src/app/api/utils/auth.js:24 | a digit run followed by a non-digit is found exactly |
| Claims.ParseNatText | src/app/api/utils/auth.js:24 | parsing a printed number gives the number and the untouched rest |
| Claims.ParseEscaped | src/app/api/utils/auth.js:24 | an escaped string body followed by a closing quote parses back to the original string |
| Claims.HexDigit | src/app/api/auth/login/route.js:66 | the lower-case hex digit written in a `\u00XX` escape reads back as its value |
| Claims.EscapeChar | src/app/api/auth/login/route.js:66 | an escaped character is never a raw control character, and any other character except `"` and `\` is kept as it is |
| Claims.EscapeNoControls | src/app/api/auth/login/route.js:66 | a string escaped as `JSON.stringify` escapes it holds no raw control character, so the claims JSON is valid whatever the email or role hold |
| Claims.ParseQuote | src/app/api/utils/auth.js:24 | a quoted JSON string parses back to the original string and the rest |
| Claims.ExpectLit | src/app/api/utils/auth.js:24 | a literal is consumed from text that starts with it |
| Claims.ParseHeadJson | src/app/api/utils/auth.js:24 | the userId, email and role fields of serialised claims parse back to their values |
| Claims.ParseExpText | src/app/api/utils/auth.js:24-27 | the `exp` field, present or absent, parses back to its value |
| Claims.ParseClaimsJson | src/app/api/auth/login/route.js:57-67 | `JSON.parse(JSON.stringify(claims))` gives back the claims |
| Claims.ClaimsJsonInjective | src/app/api/auth/login/route.js:57-67 | different claims serialise to different JSON |
| Tokens.TokenHash | src/app/api/utils/auth.js:32 | the token hash exists exactly for binary tokens and is the first 255 characters of its base64 |
| Tokens.BearerToken | src/app/api/utils/auth.js:5-15 | an extracted token is non-empty and the header is exactly `Bearer ` followed by it |
| Tokens.DecodeClaims | src/app/api/utils/auth.js:19-24 | claims are decoded only from tokens that split into exactly three parts |
| Tokens.HeaderIsBinary | src/app/api/auth/login/route.js:65-67 | the fixed JWT header can be passed to `btoa` |
| Tokens.SignatureChars | src/app/api/auth/login/route.js:65-67 | the fixed signature contains no dot and is binary |
| Tokens.IssueDefined | src/app/api/auth/login/route.js:65-67 | a token can be issued exactly when the claims JSON is binary |
| Tokens.IssuedSplits | src/app/api/auth/login/route.js:65-67 | an issued token splits into the encoded header, the encoded claims and the signature |
| Tokens.IssuedDecodes | src/app/api/utils/auth.js:19-24 | an issued token decodes to exactly the claims it was issued with |
| Tokens.IssuedHashable | src/app/api/auth/login/route.js:70 | an issued token always has a hash |
| Tokens.BearerOf | src/app/api/utils/auth.js:7-15 | `Bearer t` yields `t`, except that an empty token is refused |
| Tokens.ExpiredLater | src/app/api/utils/auth.js:27-29 | an expired token stays expired at any later time |
| Store.AnswerRows | src/app/api/surveys/response/route.js:51-60 | one answer row per submitted answer, in order |
| Store.Database.InsertSession | src/app/api/auth/login/route.js:73-76 | the session gets a fresh id; only that id is added and the id counter advances |
| Store.Database.InsertExpense | src/app/api/expenses/route.js:193-197 | the expense gets a fresh id; only that id is added |
| Store.Database.InsertJob | src/app/api/jobs/route.js:111-116 | the job gets a fresh id; only that id is added |
| Store.Database.InsertTimesheet | src/app/api/timesheets/clock-in/route.js:45-52 | the timesheet gets a fresh id; only that id is added |
| Store.Database.InsertResponse | src/app/api/surveys/response/route.js:40-48 | the response gets a fresh id; only that id is added |
| Auth.CheckToken | src/app/api/utils/auth.js:4-46 | a token is accepted only with a Bearer header, a hash, and a session that is live for that hash |
| Auth.Authenticate | src/app/api/utils/auth.js:46-68 | a user results only from an accepted token whose `last_used_at` write went through |
| Auth.VerifyToken | src/app/api/utils/auth.js:4-69 | returns the authenticated user and only stamps the matched session's `last_used_at` |
| Auth.Admit | src/app/api/utils/auth.js:72-82 | admitted iff authenticated and (no roles given or the role is listed); 401 iff unauthenticated; 403 iff the role is refused |
| Auth.RequireAuth | src/app/api/utils/auth.js:105-124 | the reply is the admission decision for the authenticated user |
| Auth.AcceptedToken | src/app/api/utils/auth.js:7-44 | an accepted token came from a Bearer header, has three parts, decodes to the claims, is unexpired, and matched the lowest-id live session for its hash |
| Auth.AuthenticatedUser | src/app/api/utils/auth.js:33-63 | the user is the matched session's owner, is active, and carries that user's role and email |
| Auth.StampOnlyTouchesLastUsed | src/app/api/utils/auth.js:49-53 | the stamp changes no session's owner, hash or expiry, and touches only the matched session |
| Auth.MinimumRoleReflexive | src/app/api/utils/auth.js:85-102 | a known role meets itself as a minimum |
| Auth.MinimumRoleMonotone | src/app/api/utils/auth.js:85-102 | raising a user's role never loses a minimum-role check |
| Auth.MinimumRoleUnknown | src/app/api/utils/auth.js:93-102 | an unknown user role fails every known minimum; an unknown minimum is met by nobody |
| Auth.ExpenseBundles | src/app/api/utils/auth.js:127-131 | the expense permission lists are nested and coincide with the manager, accountant and employee minimum roles |
| Login.FindUser | src/app/api/auth/login/route.js:17-28 | finds the lowest-id user whose email equals the lower-cased input, or reports that none has it |
| Login.Decide | src/app/api/auth/login/route.js:9-71 | a granted login names an existing user |
| Login.Post | src/app/api/auth/login/route.js:9-93 | a refusal adds no session; a grant adds exactly one fresh session and returns the token and the user |
| Login.Refusals | src/app/api/auth/login/route.js:9-54 | 400 for a missing email or password; 401 for an unknown email, a deactivated account or a wrong password, in that order |
| Login.GrantedWhen | src/app/api/auth/login/route.js:9-67 | a login is granted iff both fields are given, the lower-cased email finds an active user, the password is accepted, and the claims can be encoded |
| Login.GrantedToken | src/app/api/auth/login/route.js:57-71 | the granted token carries the user's id, email and role and expires in a week; it has three parts, decodes to those claims and its hash is stored |
| Login.LoginThenVerify | src/app/api/utils/auth.js:4-44 | a freshly issued token is accepted with the same claims at any time within the following week |
| VerifyRoute.Outcome | src/app/api/auth/verify/route.js:5-89 | the verify endpoint answers only 200 or 401 |
| VerifyRoute.Get | src/app/api/auth/verify/route.js:5-89 | the reply is the verify outcome and only the matched session is stamped |
| VerifyRoute.AgreesWithGate | src/app/api/auth/verify/route.js:26-82 | verify succeeds iff the shared gate authenticates; the user then matches, with the email from the token |
| VerifyRoute.Messages | src/app/api/auth/verify/route.js:7-89 | each rejection reason yields its own 401 message |
| Query.Slots | src/app/api/expenses/route.js:27-64 | a WHERE clause has at most one parameter per condition |
| Query.TextParam | src/app/api/expenses/route.js:40-64 | a text filter applies exactly when its query value is non-empty |
| Query.IntParam | src/app/api/jobs/route.js:41-51 | an integer filter applies exactly when a value was given |
| Query.PushFilter | src/app/api/expenses/route.js:40-64 | adding an optional filter appends one `$n` condition and its parameter, and the clause then means the old constraints plus that filter |
| Query.PushSearch | src/app/api/jobs/route.js:53-57 | adding the search keeps the placeholders numbered and the clause means the old constraints plus the search |
| Query.IntOr | src/app/api/expenses/route.js:11-12 | `parseInt(x) \|\| d`: a non-zero number is kept, and absent, NaN or 0 fall back to the default |
| Query.PageOf | src/app/api/jobs/route.js:16-18 | the page is 1 when absent, the number when given, and undefined (NaN) otherwise |
| Query.CeilDiv | src/app/api/expenses/route.js:131-139 | `Math.ceil(total / limit)` is the least page count covering the total |
| Query.SlotsAppend | src/app/api/expenses/route.js:27-64 | appending a condition adds one slot exactly when it takes a parameter |
| Query.NumberedAppend | src/app/api/expenses/route.js:27-64 | appending a condition numbered `$k+1` keeps the placeholders consecutive |
| Query.NumberedWithin | src/app/api/expenses/route.js:27-64 | consecutive placeholders refer only to existing parameters |
| Query.ResolveExtend | src/app/api/expenses/route.js:27-64 | pushing more parameters does not change what earlier conditions mean |
| Query.ResolveAppend | src/app/api/expenses/route.js:27-64 | the meaning of a clause with one more condition is the old meaning plus that condition's |
| Query.PushParam | src/app/api/expenses/route.js:40-64 | pushing a condition and its parameter together appends exactly that constraint |
| Query.PushUnclosed | src/app/api/timesheets/route.js:50-58 | adding `clock_out_time IS NULL` appends the open-shift constraint |
| Query.MatchesConcat | src/app/api/expenses/route.js:27-64 | a row satisfies conditions joined by AND iff it satisfies both parts |
| Query.OptionalMeans | src/app/api/expenses/route.js:40-64 | an optional filter holds iff it is absent or the row's column compares as required |
| Query.SearchMeans | src/app/api/jobs/route.js:53-57 | the search holds iff no search was given or the lower-cased title or description contains the lower-cased term |
| Listing.Least | src/app/api/expenses/route.js:81-85 | the least id of a non-empty set is in it and below every other |
| Listing.AscendingIds | src/app/api/expenses/route.js:81-85 | lists exactly the ids of the set, once each |
| Listing.Insert | src/app/api/expenses/route.js:81-85 | inserting into a sorted list gives a sorted permutation with the new id |
| Listing.SortBy | src/app/api/expenses/route.js:81-85 | `ORDER BY key`: a sorted permutation of the input |
| Listing.Window | src/app/api/expenses/route.js:81-85 | `LIMIT`/`OFFSET`: the slice starting at the offset, at most limit long, empty past the end |
| Listing.Ordered | src/app/api/expenses/route.js:81-85 | the selected ids, each exactly once, sorted by the key in the given direction |
| Listing.LeastExists | src/app/api/expenses/route.js:81-85 | every non-empty set of ids has a least element |
| Listing.SortedCons | src/app/api/expenses/route.js:81-85 | putting an id in front of a sorted list keeps it sorted when it precedes the head |
| Listing.SortedPairwise | src/app/api/expenses/route.js:81-85 | in a sorted list every earlier id precedes every later one |
| Listing.FirstOrdered | src/app/api/timesheets/route.js:72-80 | the first id of an ordered non-empty set precedes all the others |
| Listing.ConsecutivePages | src/app/api/expenses/route.js:81-85 | two consecutive pages together are the double-size page |
| Shifts.OpenOf | src/app/api/timesheets/clock-in/route.js:19-27 | exactly the user's timesheets with no clock-out time |
| Shifts.ClockInKey | src/app/api/timesheets/clock-out/route.js:29-41 | the sort key of each timesheet is its clock-in time |
| Shifts.DurationSec | src/app/api/timesheets/clock-out/route.js:43-45 | the duration is the elapsed milliseconds floored to whole seconds |
| Shifts.Minutes | src/app/api/timesheets/clock-out/route.js:48-57 | total minutes are the seconds floored to whole minutes |
| Shifts.FixOf | src/app/api/timesheets/clock-out/route.js:99 | a clock reply reports the location, with the accuracy sent, exactly when both coordinates are truthy |
| Shifts.Sample | src/app/api/timesheets/clock-out/route.js:60-65 | clock-in and clock-out log one location sample for the shift exactly when a fix is reported, carrying that fix, the user and the time, and none otherwise |
| Shifts.OneOpenMeansAtMostOne | src/app/api/timesheets/clock-in/route.js:19-27 | under the one-open-shift invariant a user has at most one open shift |
| Shifts.OpenKeepsOne | src/app/api/timesheets/clock-in/route.js:19-52 | adding a shift for a user with none open keeps the invariant, and it becomes their only open shift |
| Shifts.UpdateKeepsOne | src/app/api/timesheets/clock-out/route.js:48-57 | updating a shift without newly opening it keeps the invariant |
| Shifts.DurationAgrees | src/app/api/timesheets/clock-out/route.js:43-57 | the stored minutes agree with the elapsed time, and a non-negative shift has minutes no more than its seconds |
| ClockIn.NewShift | src/app/api/timesheets/clock-in/route.js:45-52 | the new timesheet is the user's, open, and clocked in now |
| ClockIn.Start | src/app/api/timesheets/clock-in/route.js:11-73 | performs the clock-in effect and keeps at most one open shift per user |
| ClockIn.Post | src/app/api/timesheets/clock-in/route.js:5-73 | 401 without authentication and no change; otherwise the clock-in effect; at most one open shift per user is kept |
| ClockIn.ClockInFacts | src/app/api/timesheets/clock-in/route.js:11-73 | succeeds iff the user is an employee with no open shift and any given job and client exist; it then adds one open shift, the user's only open one, and a location sample only when coordinates were sent; a refusal changes nothing |
| ClockOut.Target | src/app/api/timesheets/clock-out/route.js:20-41 | the shift to close is the named one if it is the user's and open, else the latest open one, and none only when there is nothing to close |
| ClockOut.Closed | src/app/api/timesheets/clock-out/route.js:43-57 | the closed row is no longer open, keeps its owner and start, and records the minutes and survey flag |
| ClockOut.InsertAnswers | src/app/api/timesheets/clock-out/route.js:68-88 | appends one answer row per answer |
| ClockOut.FileSurvey | src/app/api/timesheets/clock-out/route.js:68-88 | files the optional survey |
| ClockOut.Close | src/app/api/timesheets/clock-out/route.js:43-104 | closes exactly the target shift, appends the location sample and survey, reports the duration, and keeps at most one open shift per user |
| ClockOut.Finish | src/app/api/timesheets/clock-out/route.js:11-104 | 403 for non-employees and 404 with the source's message when nothing can be closed, with nothing changed; otherwise the close |
| ClockOut.Post | src/app/api/timesheets/clock-out/route.js:5-104 | 401 and no change without authentication; otherwise 403 for non-employees and 404 with the source's message when nothing can be closed, both changing nothing, or else the target shift closed, the location sample and survey filed and the closed shift reported; at most one open shift per user is kept |
| ClockOut.LatestOpen | src/app/api/timesheets/clock-out/route.js:29-41 | without a shift id the target is the latest open shift, and the only one under the invariant |
| ClockOut.SurveyOutcome | src/app/api/timesheets/clock-out/route.js:68-88 | a survey with a template and answers adds one response for this shift and user and one answer row per answer; otherwise nothing is filed |
| Timesheets.PushCurrent | src/app/api/timesheets/route.js:50-58 | the `current` filter appends the open-shift condition while keeping the clause numbered |
| Timesheets.BuildWhere | src/app/api/timesheets/route.js:37-70 | the built clause means the timesheet filters, and an employee's clause starts with `user_id = $1` bound to their own id |
| Timesheets.SheetRow | src/app/api/timesheets/route.js:37-70 | a timesheet exposes its owner, clock-in time and open state to the filters |
| Timesheets.Selected | src/app/api/timesheets/route.js:72-80 | only existing timesheets are selected |
| Timesheets.PointOf | src/app/api/timesheets/route.js:103-117 | a location is reported exactly when both coordinates are truthy |
| Timesheets.ViewOf | src/app/api/timesheets/route.js:85-123 | the row shown has the stored times, `Open`/`Closed` status, a floored duration only when closed, and the break minutes defaulting to 0 |
| Timesheets.Views | src/app/api/timesheets/route.js:85-123 | one view per listed id, in order |
| Timesheets.PageIds | src/app/api/timesheets/route.js:72-80 | the page lists only existing timesheets |
| Timesheets.ListOutcome | src/app/api/timesheets/route.js:5-131 | the list answers 200, 401 or 500 only; 401 exactly without authentication; it succeeds iff the user is authenticated and either asks for the current shift or gives a page that is a number of at least 1 |
| Timesheets.List | src/app/api/timesheets/route.js:5-131 | the reply is the list outcome for the authenticated user and only the session stamp changes |
| Timesheets.FiltersMean | src/app/api/timesheets/route.js:37-70 | a timesheet passes the built WHERE clause iff it is visible: the employee's own or the requested user's, open when `current`, inside the from/to range |
| Timesheets.VisibleIds | src/app/api/timesheets/route.js:37-70 | exactly the visible timesheets |
| Timesheets.SelectsVisible | src/app/api/timesheets/route.js:37-80 | the SQL selection equals the visible timesheets |
| Timesheets.ListIsWindowOfVisible | src/app/api/timesheets/route.js:37-123 | a successful list is the page of visible timesheets, newest clock-in first, with limit 1 for `current` |
| Timesheets.ListedAreVisible | src/app/api/timesheets/route.js:37-123 | at most a page is listed, every listed timesheet is visible, and an employee sees only their own |
| Timesheets.LatestFirst | src/app/api/timesheets/route.js:72-80 | the first of the ordered visible timesheets exists iff any is visible, and has the latest clock-in |
| Timesheets.CurrentShowsLatest | src/app/api/timesheets/route.js:50-80 | `current` always succeeds and shows the one open visible shift with the latest clock-in, without a duration, if there is any |
| Timesheets.CurrentVisibleIsOpen | src/app/api/timesheets/route.js:37-58 | for an employee without a range, `current` selects exactly their open shifts |
| Timesheets.CurrentIsOwnOpenShift | src/app/api/timesheets/route.js:37-80 | under the one-open-shift invariant, an employee's `current` list is their open shift, or empty when they have none |
| Expenses.BuildWhere | src/app/api/expenses/route.js:27-64 | the built clause means the expense filters, and a user who may not see all expenses is bound to `user_id = $1` with their own id |
| Expenses.Selected | src/app/api/expenses/route.js:81-98 | only existing expenses are selected |
| Expenses.ListOutcome | src/app/api/expenses/route.js:5-146 | succeeds, with 200, iff the user passes the auth gate for submitting expenses and the limit and offset are not negative; a gate refusal is passed on with its own status and no body |
| Expenses.List | src/app/api/expenses/route.js:5-146 | the reply is the list outcome for the authenticated user and only the session stamp changes |
| Expenses.NewRow | src/app/api/expenses/route.js:193-197 | the new expense is the user's, with a positive amount and the default status, and any card it names exists |
| Expenses.Create | src/app/api/expenses/route.js:159-227 | performs the create effect |
| Expenses.Post | src/app/api/expenses/route.js:150-227 | a refused gate changes nothing and replies with its status; otherwise the create effect |
| Expenses.ChargedTo | src/app/api/expenses/route.js:202-208 | only existing expenses are charged to a card |
| Expenses.TotalRemove | src/app/api/expenses/route.js:202-208 | a total splits into one expense plus the rest |
| Expenses.TotalFrame | src/app/api/expenses/route.js:202-208 | a total ignores expenses outside its set |
| Expenses.CreateKeepsLedger | src/app/api/expenses/route.js:193-208 | charging a new pending expense to its card keeps each card's month spend equal to its expenses' total |
| Expenses.FiltersMean | src/app/api/expenses/route.js:27-64 | an expense passes the built WHERE clause iff it is visible: in the user's scope and matching status, date range and category |
| Expenses.ListedAreVisible | src/app/api/expenses/route.js:81-139 | at most a page is listed, every listed expense is visible, the total counts the visible ones, and restricted users see only their own |
| Expenses.VisibleIds | src/app/api/expenses/route.js:27-64 | exactly the expenses of existing users that are visible under the filters |
| Expenses.SelectsVisible | src/app/api/expenses/route.js:27-98 | the SQL selection equals the visible expenses |
| Expenses.ListIsPageOfVisible | src/app/api/expenses/route.js:11-85 | a successful list is the window of `limit` visible expenses, newest `created_at` first, starting at `(page - 1) * limit` |
| Expenses.Pagination | src/app/api/expenses/route.js:11-19 | page and limit fall back to 1 and 50, and the page count is the least that covers the total |
| Expenses.RefusalReasons | src/app/api/expenses/route.js:161-190 | accepted iff all fields are given, the amount is positive and any card is active and the user's or the user is an admin; a zero amount counts as missing |
| Expenses.CreateFacts | src/app/api/expenses/route.js:159-227 | success iff no refusal; then exactly one new expense with the user and amount and a 201 reply naming it; only the named card's spend rises, by the amount |
| Expenses.CreateEffectKeepsLedger | src/app/api/expenses/route.js:193-208 | every expense creation keeps the card ledger |
| Jobs.BuildWhere | src/app/api/jobs/route.js:29-57 | the built clause means the job filters, and an employee's starts with `assigned_to = $1` bound to their own id |
| Jobs.JobRow | src/app/api/jobs/route.js:29-57 | a job exposes its status, assignee, client and title/description texts to the filters |
| Jobs.Selected | src/app/api/jobs/route.js:59-61 | only existing jobs are selected |
| Jobs.ScheduledKey | src/app/api/jobs/route.js:59 | jobs are ordered by their scheduled date |
| Jobs.Locations | src/app/api/jobs/route.js:81-84 | a pickup and a destination stop are listed exactly when both are given, otherwise none |
| Jobs.Views | src/app/api/jobs/route.js:66-85 | one view per listed job, in order, with its stops |
| Jobs.PageIds | src/app/api/jobs/route.js:59-61 | the page lists only existing jobs |
| Jobs.ListOutcome | src/app/api/jobs/route.js:5-90 | the list answers 200, 401 or 500 only; 401 exactly without authentication; it succeeds iff the user is authenticated and the page is a number of at least 1 |
| Jobs.List | src/app/api/jobs/route.js:5-90 | the reply is the list outcome and only the session stamp changes |
| Jobs.NewRow | src/app/api/jobs/route.js:105-116 | a new job is unassigned, `assigned`, assigned by its creator, priority defaulting to `medium` |
| Jobs.Create | src/app/api/jobs/route.js:100-132 | performs the create effect: a refusal changes nothing, else the new row is inserted under the next id and replied with that id, without stops |
| Jobs.Post | src/app/api/jobs/route.js:94-132 | 401 and no change without authentication; otherwise the create effect |
| Jobs.FiltersMean | src/app/api/jobs/route.js:29-57 | a job passes the built WHERE clause iff it is visible: assigned to the employee, with matching status, assignee, client and search |
| Jobs.VisibleIds | src/app/api/jobs/route.js:29-57 | exactly the visible jobs |
| Jobs.SelectsVisible | src/app/api/jobs/route.js:29-61 | the SQL selection equals the visible jobs |
| Jobs.ListIsPageOfVisible | src/app/api/jobs/route.js:29-85 | a successful list is the page of visible jobs in scheduled-date order |
| Jobs.ListedAreVisible | src/app/api/jobs/route.js:29-85 | at most a page is listed, every listed job is stored and visible, and an employee sees only jobs assigned to them |
| Jobs.CreateFacts | src/app/api/jobs/route.js:100-132 | success iff an admin or manager sends a title and a description (403 for other roles); exactly one new unassigned job is added, and the reply is that row under its new id |
| Jobs.NewJobHiddenFromEmployees | src/app/api/jobs/route.js:29-33 | a freshly created job appears in no employee's list until it is assigned |
| SurveyTemplates.Listed | src/app/api/surveys/templates/route.js:15-21 | only active templates whose creator exists are listed |
| SurveyTemplates.CreatedKey | src/app/api/surveys/templates/route.js:15-21 | templates are ordered by creation time |
| SurveyTemplates.QuestionIds | src/app/api/surveys/templates/route.js:25-29 | exactly the questions of the template |
| SurveyTemplates.OrderKey | src/app/api/surveys/templates/route.js:25-29 | questions are ordered by their order index |
| SurveyTemplates.QuestionOrder | src/app/api/surveys/templates/route.js:25-29 | every question of the template exactly once, in order-index order |
| SurveyTemplates.QuestionViewOf | src/app/api/surveys/templates/route.js:31-46 | a question view keeps its id and order index |
| SurveyTemplates.QuestionViews | src/app/api/surveys/templates/route.js:31-46 | one view per question, in order |
| SurveyTemplates.ViewOf | src/app/api/surveys/templates/route.js:31-46 | a template view keeps its id, mandatory flag and creation time |
| SurveyTemplates.Views | src/app/api/surveys/templates/route.js:31-46 | one view per template, in order |
| SurveyTemplates.CatalogueIds | src/app/api/surveys/templates/route.js:15-21 | every listed template exactly once, newest first |
| SurveyTemplates.NewestFirst | src/app/api/surveys/templates/route.js:15-21 | a list sorted descending by creation key has non-increasing creation times |
| SurveyTemplates.MandatoryOnly | src/app/api/surveys/templates/route.js:51-53 | keeps exactly the mandatory templates |
| SurveyTemplates.Outcome | src/app/api/surveys/templates/route.js:5-61 | the endpoint answers 200 or 401 only |
| SurveyTemplates.Get | src/app/api/surveys/templates/route.js:5-61 | the reply is the outcome and only the session stamp changes |
| SurveyTemplates.MandatoryOnlyConcat | src/app/api/surveys/templates/route.js:51-53 | the mandatory filter distributes over concatenation, so it keeps the order |
| SurveyTemplates.CatalogueShowsListed | src/app/api/surveys/templates/route.js:15-46 | one view per listed template, each with its own mandatory flag |
| SurveyTemplates.CatalogueNewestFirst | src/app/api/surveys/templates/route.js:15-21 | the catalogue is newest first |
| SurveyTemplates.CatalogueComplete | src/app/api/surveys/templates/route.js:15-46 | every listed template appears in the catalogue |
| SurveyTemplates.QuestionsInOrder | src/app/api/surveys/templates/route.js:25-46 | a template shows exactly its own questions, in order-index order |
| SurveyTemplates.QuestionsComplete | src/app/api/surveys/templates/route.js:25-46 | no question of the template is left out |
| SurveyTemplates.TargetFilter | src/app/api/surveys/templates/route.js:12-53 | for `target=timesheet` only mandatory templates remain, in order; any other target leaves the list unchanged |
| SurveySubmission.Submit | src/app/api/surveys/response/route.js:14-76 | performs the submit effect |
| SurveySubmission.Post | src/app/api/surveys/response/route.js:5-76 | 401 and no change without authentication; otherwise the submit effect |
| SurveySubmission.SubmitFacts | src/app/api/surveys/response/route.js:14-76 | accepted iff a template id and answers are sent, the template is active and any shift is the user's own; it then adds one response and one answer row per answer, flags only that shift, and leaves open shifts alone; a refusal changes nothing |
| Telemetry.NewSample | src/app/api/telemetry/position/route.js:36-46 | the sample is the user's, with the coordinates sent, linked to the shift only when one is given, and timed by `ts` or else now |
| Telemetry.Record | src/app/api/telemetry/position/route.js:11-62 | performs the record effect: a refusal changes nothing, else the sample is appended and replied with its new row id |
| Telemetry.Post | src/app/api/telemetry/position/route.js:5-62 | 401 and no change without authentication; otherwise the record effect |
| Telemetry.RecordFacts | src/app/api/telemetry/position/route.js:11-62 | recorded iff an employee sends truthy coordinates and any shift named is their own open one; exactly one sample is then appended and linked only to such a shift, and the reply is that row with its new id; a refusal changes nothing |

## Left out

- The JSON bodies are modelled as records of optional fields. JSON `null` and an absent field are the same (`None`), so a `priority: null` is treated as absent.
- Query-string values arrive already cast: ids and timestamps are integers, and status, category and search are text. A non-numeric `userId`, `assigneeId` or `clientId`, and an unparseable `from`/`to`, are not modelled.
- Expense dates are compared as text (lexicographic order), just as the column would compare ISO strings.
- Coordinates, speed and accuracy are integers. Floating point and `parseFloat` are not modelled.
- `JSON.stringify`/`JSON.parse` are modelled only for the claims object, by a serialiser of exactly that shape. General JSON is not modelled.
- Claims.ParseQuoted: strings are sequences of Unicode scalar values, not UTF-16, so a `\u` escape of a surrogate half, which `JSON.parse` would pair with its partner, is refused; the serialiser never writes one.
- The rows of `location_updates` are an append-only sequence, and a row's id is its position in it; the database's own serial numbering is not modelled.
- The `LIKE` wildcards `%` and `_` inside a search term are not interpreted: the search is substring containment after lower-casing.
- Lower-casing covers ASCII letters only, with no Unicode case mapping.
- Database failures become 500 replies in the handlers. Only the failing session stamp in token verification is modelled (a flag in the request context); other 500 paths, foreign-key errors and the `catch` blocks are not.
- Joined display columns (`job_title`, `client_name`, `user_name`, `assignee_name`) and the question options are not part of the views.
- The survey template's creator name is always first name, a space and last name; SQL `||` would give NULL when either name is NULL.
- Timestamps are formatted into ISO strings per row; that formatting is not modelled.
- `Promise.all` concurrency is not modelled: the question lookups run one after another.
- The clock (`Date.now()`, `NOW()`) is a parameter `nowMs`, and the expense status default is a parameter `defaultStatus`.
- SQL leaves the order of ties unspecified. The model breaks ties by ascending id.
- Telemetry: the client's `ts` is taken as a number of milliseconds; date strings are not modelled.
- Listing.AscendingIds: it states that the ids come once each, but not that they are ascending.
- The job actions under `jobs/[id]/`, the expense approval and rejection routes and the health endpoint are not part of this model.
