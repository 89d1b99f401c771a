# Kattunar-kuzhu server: handlers and records

This project models the request handlers of the Kattunar-kuzhu member
server and the MongoDB records they read and write. The handlers cover
member registration and approval, business profiles, member search,
meetings with attendance marking, one-on-one meetings between members
with reschedule proposals, referrals with confirmation and thank-you
notes, and requirements that members post and answer.

Each handler is modelled in two layers:

- **A pure function.** It takes the caller's uid (`None` when the token
  check produced none), the decoded body fields and the current
  collection. It returns the created or updated record, or the error
  answer, and it checks its conditions in the order the source checks
  them. Its contract states when each error is given and what the new
  record holds. Lemmas relate several handlers to each other: a proposal
  followed by its acceptance, a confirmation followed by a thank-you
  note, marking attendance twice, and so on.
- **A store class.** Its map field is the collection keyed as the
  database keys it. A method performs the handler's steps on that map.
  It proves that its result is the pure function's result, that the
  collection changes in exactly one entry, and that the collection
  invariant is kept. The invariant covers what the schema demands of
  every record and the uniqueness the indexes enforce.

Some behaviour is passed in as a parameter:

- the clock, as `now`;
- the object-id syntax check, as `isValidId`;
- the distance computation, as `dist`;
- the id that a new record receives, as `newId`.

The list endpoints are functions over a snapshot of the collection in
storage order. Each one is proved against the filter it applies: every
item matches, every matching record is listed unless the limit was
reached, and the items are in the stated order.

Modules:

| file | module | models |
|---|---|---|
| common.dfy | `Common` | error answers, optional values, the limit clamp |
| text.dfy | `Text` | `trim()`, `toLowerCase()`, digits |
| listing.dfy | `Listing` | `find(filter).sort(key).limit(n)` |
| datetime.dfy | `DateTime` | `parseDateTime`, local instants |
| user_model.dfy, registration.dfy, users.dfy | `UserModel`, `Registration`, `Users` | `User.ts`, `registration.controller.ts`, `users.controller.ts` |
| business_model.dfy, business.dfy | `BusinessModel`, `BusinessController` | `Business.ts`, `business.controller.ts` |
| search.dfy | `Search` | `search.controller.ts` |
| meeting_model.dfy, meetings.dfy | `MeetingModel`, `Meetings` | `Meeting.ts`, `meetings.controller.ts` |
| attendance_model.dfy, attendance.dfy | `AttendanceModel`, `AttendanceController` | `Attendance.ts`, `attendance.controller.ts` |
| oneonone_model.dfy, oneonone.dfy | `OneOnOneModel`, `OneOnOneController` | `OneOnOne.ts`, `oneonone.controller.ts` |
| referral_model.dfy, referrals.dfy | `ReferralModel`, `Referrals` | `Referral.ts`, `referrals.controller.ts` |
| requirement_model.dfy, requirement_response_model.dfy, requirements.dfy | `RequirementModel`, `RequirementResponseModel`, `Requirements` | `Requirement.ts`, `RequirementResponse.ts`, `requirements.controller.ts` |
| stats.dfy | `Stats` | `startOfWeek` |

Modelling decisions:

- **Schema validation on create or save.**
  - The title of a one-on-one or a meeting may be white space only. It
    passes the controller's falsy check and the schema's `trim` turns it
    into "". The schema's `required` then rejects it, which answers 500.
    The model gives `Internal` in that case.
  - The same happens to a manual referral contact whose name, business
    name or category is white space only.
- **Dates.**
  - Instants are milliseconds of local wall-clock time, counted from
    1970-01-01, with no time zone or daylight saving.
  - `new Date(y, m - 1, d, ...)` accepts a day the month does not have
    and rolls it into the next month. `StartInstant` counts days from the
    start of the month and reproduces this.
- **The business update.** It is built as a record with one optional
  entry per body field. The source builds a dictionary with the same
  entries.
  - A falsy `email` becomes an entry set to `undefined`. Mongoose, from
    version 6 onwards, drops such keys from a `$set`, so the stored e-mail
    is kept.
  - A requirement's `isPublic` holds the truthiness of the value sent, so
    `Boolean(...)` is already applied.

## Model

| member | source | states |
|---|---|---|
| Common.StatusCode | src/controllers/oneonone.controller.ts:31-61 | each error answer has its HTTP code; 500 only for the internal error, 403 for the forbidden and the out-of-radius answers |
| Common.ItemsOrEmpty | src/controllers/business.controller.ts:64-66 | `Array.isArray(x) ? x : []`: the items of an array field, else empty |
| Common.ClampLimit | src/controllers/search.controller.ts:12 | the clamped limit lies in [1, hi]; an absent or zero limit gives the default; an in-range limit is kept; larger gives hi, negative gives 1 |
| Text.TrimStartCuts | src/controllers/business.controller.ts:57 | trimming the front removes a prefix made only of white space and stops at a non-space character |
| Text.TrimEndCuts | src/controllers/business.controller.ts:57 | trimming the back removes a suffix made only of white space and stops at a non-space character |
| Text.Trim | src/controllers/business.controller.ts:57 | `trim()` leaves no white space at either end |
| Text.TrimBounds | src/controllers/business.controller.ts:57 | `trim()` returns a slice of its input whose cut-off ends are all white space |
| Text.BlankIffAllSpace | src/controllers/requirements.controller.ts:15 | a text trims to "" exactly when it is all white space |
| Text.TrimTight | src/models/Business.ts:35 | trimming a text with no white space at its ends leaves it unchanged |
| Text.TrimIdempotent | src/models/Business.ts:35 | the schema's second `trim` after the controller's changes nothing |
| Text.LowerChar | src/controllers/business.controller.ts:59 | upper-case ASCII letters become lower case; other characters are kept |
| Text.ToLower | src/controllers/business.controller.ts:59 | `toLowerCase()` keeps the length and lowers each character |
| Text.ToLowerIdempotent | src/models/Business.ts:38 | lowering twice is lowering once |
| Text.LowerKeepsTight | src/models/Business.ts:38 | lowering keeps a trimmed text trimmed |
| Text.TrimmedIfTruthy | src/controllers/registration.controller.ts:26-27 | a truthy field is stored trimmed; a falsy one is absent |
| Text.EmailIfTruthy | src/models/User.ts:30 | a truthy e-mail is stored trimmed and lower case; a falsy one is absent |
| Text.DigitValue | src/controllers/oneonone.controller.ts:10-12 | a decimal digit's value is below 10 |
| Text.Decimal2 | src/controllers/oneonone.controller.ts:10-11 | `parseInt` of two digits is ten times the first plus the second |
| Text.Decimal4 | src/controllers/oneonone.controller.ts:12 | `parseInt` of four digits splits into its two halves and is below 10000 |
| Text.DigitChar | src/controllers/oneonone.controller.ts:8 | the digit character of a number below 10 reads back as that number |
| Text.Pad2 | src/models/OneOnOne.ts:12 | two-digit zero-padded text is two digits with no white space |
| Text.Pad4 | src/models/OneOnOne.ts:12 | four-digit zero-padded text is four digits with no white space |
| Text.Pad2Value | src/models/OneOnOne.ts:12 | the padded two digits read back as the number |
| Text.Pad4Value | src/models/OneOnOne.ts:12 | the padded four digits read back as the number |
| Listing.Insert | src/controllers/meetings.controller.ts:86 | inserting into an ascending sequence keeps it ascending and adds exactly that record |
| Listing.SortAsc | src/controllers/meetings.controller.ts:86 | `.sort({ key: 1 })` is ascending and a permutation of its input |
| Listing.SameMembers | src/controllers/referrals.controller.ts:121 | a permutation holds the same records |
| Listing.SortDesc | src/controllers/referrals.controller.ts:121 | `.sort({ key: -1 })` is descending, a permutation, and holds exactly the input's records |
| Listing.Take | src/controllers/meetings.controller.ts:86 | `.limit(n)` is the first n records, or all when there are fewer |
| Listing.Select | src/controllers/referrals.controller.ts:121 | the filter keeps exactly the matching records |
| Listing.SelectCount | src/controllers/referrals.controller.ts:121 | a matching record is selected as often as it is stored, any other not at all; the selection is a sub-multiset of the records |
| Listing.SelectAppend | src/controllers/requirements.controller.ts:42 | filtering a concatenation filters each part |
| Listing.SelectKeepsDistinct | src/controllers/search.controller.ts:24-41 | records with pairwise distinct keys keep them distinct once filtered |
| Listing.SelectNone | src/controllers/requirements.controller.ts:42 | records none of which match are all dropped |
| Listing.SelectAgree | src/controllers/oneonone.controller.ts:338-343 | two filters that agree on every record select the same records |
| Listing.SortedPrefix | src/controllers/meetings.controller.ts:86 | a prefix of a sorted sequence is sorted |
| Listing.QueryAsc | src/controllers/meetings.controller.ts:86 | find, ascending sort and limit: at most n matching records, ascending, none left out with a smaller key; no record more often than it is stored, and when fewer than n each match exactly as often as it is stored |
| Listing.QueryDesc | src/controllers/oneonone.controller.ts:291-293 | find, descending sort and limit: the same with the largest keys first |
| Listing.QuerySelected | src/controllers/meetings.controller.ts:86 | a query's result is a sub-multiset of what its filter selects, all of it when the limit is not reached |
| DateTime.IndexOf | src/controllers/oneonone.controller.ts:8 | the first position of a character, or the length when it is absent |
| DateTime.IndexOfAt | src/controllers/oneonone.controller.ts:8 | a character's first occurrence is where it is found first |
| DateTime.MatchDate | src/controllers/oneonone.controller.ts:8-12 | the captured year has four digits, so is at most 9999 |
| DateTime.MatchTime | src/controllers/oneonone.controller.ts:15-19 | hour and minute have at most two digits; the meridiem is PM exactly when its letter is P or p |
| DateTime.To24Hour | src/controllers/oneonone.controller.ts:20-22 | a 12-hour value lands on 0-23, before noon exactly for AM |
| DateTime.ParseDateTime | src/controllers/oneonone.controller.ts:5-26 | whatever is accepted lies in the ranges the parser checks, with a four-digit year and a 24-hour clock |
| DateTime.MatchDateAt | src/controllers/oneonone.controller.ts:8-12 | a text matching the date regex with its dashes at i and j gives the three captured numbers |
| DateTime.MatchTimeAt | src/controllers/oneonone.controller.ts:15-19 | a text matching the time regex gives hour, minute and meridiem |
| DateTime.ParseDateTimeComplete | src/controllers/oneonone.controller.ts:5-26 | every date and time that match the regexes once trimmed and pass the range checks are accepted, with the captured reading |
| DateTime.ParseTightComplete | src/controllers/oneonone.controller.ts:5-26 | the same for texts that are already trimmed |
| DateTime.ParseDateTimeSound | src/controllers/oneonone.controller.ts:5-26 | nothing else is accepted: an accepted pair matches both regexes and passes the range checks |
| DateTime.ParseTrimmed | src/controllers/oneonone.controller.ts:8 | the parser trims its inputs, so trimming them first changes nothing |
| DateTime.ParsedInRange | src/controllers/oneonone.controller.ts:13-22 | an accepted value has day 1-31, month 1-12, year 1900-9999, hour 0-23 and minute 0-59 |
| DateTime.To24HourInverse | src/controllers/oneonone.controller.ts:21-22 | 12 AM is 0, 12 PM is 12, other PM hours gain 12: each 24-hour value has exactly one 12-hour reading |
| DateTime.FormattedDateSplits | src/models/OneOnOne.ts:12 | "DD-MM-YYYY" of a date matches the date regex and reads back its fields |
| DateTime.FormattedTimeSplits | src/models/OneOnOne.ts:13 | "hh:mm AM/PM" of a time matches the time regex and reads back its fields |
| DateTime.ReadingOf | src/controllers/oneonone.controller.ts:13-22 | texts that read as a date-time within the ranges pass the checks and give it |
| DateTime.ParseFormatRoundTrip | src/controllers/oneonone.controller.ts:5-26 | every value the parser can produce is parsed back from its own "DD-MM-YYYY" and "hh:mm AM/PM" text |
| DateTime.MeridiemBoundaries | src/controllers/oneonone.controller.ts:21-22 | "12:00 AM" is midnight, "12:00 PM" is noon, "11:59 PM" is 23:59 |
| DateTime.EpochIsDayZero | src/controllers/oneonone.controller.ts:24 | 1970-01-01 00:00 is instant 0 |
| DateTime.StartInstant | src/controllers/oneonone.controller.ts:24-25 | the instant lies on the day counted from 1970-01-01 for that date, at the time of day given by the hour and minute |
| DateTime.DayOverflowParses | src/controllers/oneonone.controller.ts:13 | "31-02-2023" is accepted: the day is not checked against the month |
| DateTime.DayOverflowRollsOver | src/controllers/oneonone.controller.ts:24-25 | 31 February 2023 starts at the same instant as 3 March 2023 |
| UserModel.StatusOfText | src/models/User.ts:52 | the status text read back names that status; anything else is refused |
| UserModel.StatusTextRoundTrip | src/models/User.ts:52 | each registration status reads back from its text |
| Registration.NormalPersonal | src/controllers/registration.controller.ts:24-28 | name, phone and group id are the trimmed inputs; the e-mail is stored exactly when truthy, trimmed and lower case; the picture exactly when truthy, trimmed |
| Registration.NormalBusiness | src/controllers/registration.controller.ts:29-33 | name and category are the trimmed inputs; phone and e-mail are stored exactly when truthy, trimmed, the e-mail lower case; the location exactly when given, trimmed |
| Registration.Register | src/controllers/registration.controller.ts:4-54 | 400 unless the uid and all required fields are given; the stored user has status pending and exactly the normalised personal and business sections sent; it is created exactly when the uid is new, and then gets the new id and `registeredAt` now; an existing user keeps its id and `registeredAt` |
| Registration.RegistrationCode | src/controllers/registration.controller.ts:54 | 201 exactly when the user was created, 200 when updated |
| Registration.RegisteredNormal | src/models/User.ts:25-53 | a registered user satisfies the schema: required fields non-empty and trimmed, e-mails lower case |
| Registration.RegisterTwice | src/controllers/registration.controller.ts:35-49 | registering the same body again updates rather than creates, and stores the same user |
| Registration.ReRegisterResetsDecision | src/controllers/registration.controller.ts:42-46 | re-registering an approved or rejected member sets the status back to pending and keeps `registeredAt` |
| Registration.LookupRegistration | src/controllers/registration.controller.ts:66-79 | 400 for an empty uid, 404 for an unknown one; otherwise the stored user with that uid |
| Registration.SetStatus | src/controllers/registration.controller.ts:81-103 | 400 for a blank uid or a status outside the enum, then 404 for a uid with no record; succeeds exactly for a known uid and a status of the enum; only the status changes, to the one sent |
| Registration.UpsertKeepsKeyed | src/models/User.ts:49 | an upsert that keeps the id of an existing uid, or uses an unused id, keeps uids unique and ids distinct |
| Registration.UpsertKeepsNormal | src/models/User.ts:25-53 | an upsert of a schema-valid user keeps every user valid |
| Registration.UserStore.constructor | src/models/User.ts:47-56 | the collection starts empty and valid |
| Registration.UserStore.CreateOrUpdateRegistration | src/controllers/registration.controller.ts:35-54 | the upsert's result is `Register`'s, the one entry for the uid is replaced, and the collection stays valid |
| Registration.UserStore.UpdateRegistrationStatus | src/controllers/registration.controller.ts:91-97 | the result is `SetStatus`'s, only that user's entry changes, and the collection stays valid |
| Users.DigitsOf | src/controllers/users.controller.ts:10 | `replace(/\D/g, '')` leaves only digits and never lengthens |
| Users.DigitsOfAppend | src/controllers/users.controller.ts:10 | stripping non-digits distributes over concatenation |
| Users.DigitsOfDigits | src/controllers/users.controller.ts:10 | a text of digits only is kept as it is |
| Users.NormalizePhone | src/controllers/users.controller.ts:9-11 | the normalised phone is the last min(10, digit count) digits of the input |
| Users.NormalizePhoneIdempotent | src/controllers/users.controller.ts:9-11 | normalising a normalised phone changes nothing |
| Users.NormalizeIgnoresPrefix | src/controllers/users.controller.ts:9-11 | any country prefix before a ten-digit number is dropped |
| Users.FirstWithPhone | src/controllers/users.controller.ts:13 | the user found has that phone; none is found only when nobody has it |
| Users.StatusByPhone | src/controllers/users.controller.ts:4-16 | 400 for a blank phone; 404 when no user has the normalised phone; found exactly when some user has it, and then that user's status |
| BusinessController.GetMyBusiness | src/controllers/business.controller.ts:6-19 | 401 without a caller, 404 without a business; otherwise the caller's own business |
| BusinessController.GetBusinessByUid | src/controllers/business.controller.ts:22-33 | 400 for a blank uid; 404 when no business has the trimmed uid; found exactly when one has it, and it is that one |
| BusinessController.NonBlankTrimmed | src/controllers/business.controller.ts:75-76 | an optional product text is kept, trimmed and non-empty, exactly when it is a non-blank string |
| BusinessController.NormalizeProduct | src/controllers/business.controller.ts:70-78 | an entry without a non-blank string title becomes null; otherwise the title is trimmed, a truthy id is stored trimmed, and description and image are stored trimmed exactly when they are non-blank strings |
| BusinessController.NormalizeProducts | src/controllers/business.controller.ts:67-80 | the filtered products are no more than the input and all schema-valid |
| BusinessController.NormalizeProductsAppend | src/controllers/business.controller.ts:68-79 | normalising a concatenation normalises each part |
| BusinessController.NormalizeOne | src/controllers/business.controller.ts:68-79 | one product normalises to its normal form, or to nothing |
| BusinessController.NonBlankTrimmedStored | src/controllers/business.controller.ts:75-76 | a stored trimmed non-empty text passes the product filter unchanged |
| BusinessController.TrimmedIfTruthyStored | src/controllers/business.controller.ts:74 | a stored trimmed non-empty id passes unchanged |
| BusinessController.NormalizeStoredProduct | src/controllers/business.controller.ts:70-78 | a stored product sent back normalises to itself |
| BusinessController.NormalizedHasNoEmpty | src/controllers/business.controller.ts:74-76 | a normalised product stores no empty id, description or image, provided no id sent was blank |
| BusinessController.AsInputs | src/controllers/business.controller.ts:67-69 | stored products, sent back as a body, field by field |
| BusinessController.StoredOnce | src/controllers/business.controller.ts:67-80 | one stored product sent back is kept as it is |
| BusinessController.NormalizeOneTwice | src/controllers/business.controller.ts:67-80 | normalising one product twice is normalising it once |
| BusinessController.NormalizeProductsIdempotent | src/controllers/business.controller.ts:67-80 | sending back the products the server stored stores the same products, provided no id sent was blank |
| BusinessController.TrimDefined | src/controllers/business.controller.ts:57-63 | a defined text entry is stored trimmed; an undefined one is left out |
| BusinessController.ListDefined | src/controllers/business.controller.ts:64-66 | a defined list entry is the array, or [] when not an array; an undefined one is left out |
| BusinessController.UpdateOf | src/controllers/business.controller.ts:56-81 | the update has an entry exactly for each defined body field; entries are trimmed; the e-mail is lower case and a falsy one becomes an `undefined` entry; falsy socials become empty |
| BusinessController.BuildUpdate | src/controllers/business.controller.ts:56-81 | the entry-by-entry construction yields `UpdateOf` |
| BusinessController.SetTextEntries | src/controllers/business.controller.ts:57-63 | the text entries equal `UpdateOf`'s |
| BusinessController.SetEmailEntry | src/controllers/business.controller.ts:59 | the e-mail entry equals `UpdateOf`'s: absent when undefined, lower case and trimmed when truthy, `undefined` when falsy; nothing else changes |
| BusinessController.SetListEntries | src/controllers/business.controller.ts:64-80 | the hours, socials, gallery and products entries equal `UpdateOf`'s and the other entries are kept |
| BusinessController.TrimOpt | src/models/Business.ts:53-58 | the schema trims each optional social link |
| BusinessController.TrimSocials | src/models/Business.ts:52-59 | stored socials are all trimmed |
| BusinessController.TrimAll | src/models/Business.ts:60 | each gallery entry is stored trimmed |
| BusinessController.OrOpt | src/controllers/business.controller.ts:83-87 | `$set` of an entry over a stored field keeps both trimmed |
| BusinessController.Apply | src/controllers/business.controller.ts:83-87 | `$set` never changes the uid or the category, an empty update changes nothing, and an `undefined` e-mail entry leaves the stored e-mail |
| BusinessController.UpdateBusiness | src/controllers/business.controller.ts:36-98 | 401 without a caller, 404 without a business; otherwise the stored business with the body's update applied by `$set`; the category and uid never change |
| BusinessController.DefinedTextsStored | src/controllers/business.controller.ts:57-63 | each text field the body defines is stored as its trimmed value; a truthy e-mail trimmed and lower case |
| BusinessController.DefinedListsStored | src/controllers/business.controller.ts:64-80 | hours are the array sent or empty; gallery entries and social links are stored trimmed; falsy socials become empty; products are the normalised array |
| BusinessController.UpdateKeepsNormal | src/models/Business.ts:32-74 | an update keeps a schema-valid business valid |
| BusinessController.UndefinedFieldsKept | src/controllers/business.controller.ts:56-81 | every field absent from the body keeps its stored value |
| BusinessController.EmptyUpdateKeepsBusiness | src/controllers/business.controller.ts:83-87 | an empty body changes nothing |
| BusinessController.FalsyEmailKept | src/controllers/business.controller.ts:59 | a falsy e-mail sets the entry to `undefined`, which `$set` drops, so the stored e-mail is kept; the category is kept |
| BusinessController.BusinessDirectory.constructor | src/models/Business.ts:32-74 | the collection starts empty and valid |
| BusinessController.BusinessDirectory.UpdateMyBusiness | src/controllers/business.controller.ts:36-98 | the update's result is `UpdateBusiness`'s, only the caller's entry changes, and the collection stays valid |
| Search.Escape | src/controllers/search.controller.ts:19 | escaping never shortens the query |
| Search.EscapeLiteral | src/controllers/search.controller.ts:19 | the escaped query is a plain-text pattern standing for the query itself |
| Search.EscapedQueryMatches | src/controllers/search.controller.ts:19 | the pattern matches a text exactly when the text contains the query, ignoring case |
| Search.PatternHitFinds | src/controllers/search.controller.ts:24-41 | an approved member hits the pattern exactly when its name, business name or category contains the query |
| Search.Hits | src/controllers/search.controller.ts:24-61 | one projected item per approved member that hits the pattern, in collection order: the i-th item is the projection of the i-th such member, so each appears exactly as often as it is stored |
| Search.FindsAll | src/controllers/search.controller.ts:24-41 | the same equivalence for every member of the collection |
| Search.HitsUnique | src/controllers/search.controller.ts:24-61 | members with distinct uids give hits with distinct uids: no member is listed twice |
| Search.Joined | src/controllers/search.controller.ts:25-33 | the `$lookup` finds a business exactly when one has the member's uid, and it is that member's |
| Search.Project | src/controllers/search.controller.ts:43-61 | the projected item carries the member's uid, name and phone, and a business card exactly when the member has a business, with its name and category |
| Search.SearchMembers | src/controllers/search.controller.ts:6-71 | 401 without a caller; a blank query gives none; otherwise the items are the first hits of the escaped trimmed query, as many as the clamped limit or all of them; count equals the items; every item is a member the query should find, and all are found when the limit was not reached |
| MeetingModel.TypeOfText | src/models/Meeting.ts:27 | a type text read back names that type; anything else is refused |
| MeetingModel.StatusOfText | src/models/Meeting.ts:33 | a status text read back names that status; anything else is refused |
| MeetingModel.EnumTextsRoundTrip | src/models/Meeting.ts:27-33 | each type and status reads back from its text |
| Meetings.TypeOrGeneral | src/controllers/meetings.controller.ts:47 | a known type is kept, anything else becomes general |
| Meetings.CreateMeeting | src/controllers/meetings.controller.ts:31-66 | 400 when a required field is missing or the date and time do not parse; 500 when the title or location is blank; otherwise a scheduled meeting with the trimmed title, location and texts, the trimmed description when truthy, `createdBy` exactly when truthy and then as sent, the parsed start and the geofence numbers given |
| Meetings.StoresParsedTexts | src/controllers/meetings.controller.ts:40-52 | a meeting storing the trimmed texts and their parsed start is consistent |
| Meetings.CreatedMeetingConsistent | src/controllers/meetings.controller.ts:40-52 | a created meeting's start is the parse of its stored date and time |
| Meetings.EnumFilter | src/controllers/meetings.controller.ts:72-78 | the status and type filters apply exactly when they name enum values |
| Meetings.ListFilter | src/controllers/meetings.controller.ts:72-83 | `upcoming=true` forces status scheduled and a start from now; otherwise the enum filters |
| Meetings.ListMeetings | src/controllers/meetings.controller.ts:68-92 | at most the clamped limit (default 10, at most 100), ascending by start, matching the filter, the earliest first; no meeting more often than it is stored, and under the limit each match exactly as often as it is stored |
| Meetings.UpcomingOverridesStatus | src/controllers/meetings.controller.ts:80-83 | with `upcoming=true` the status query makes no difference |
| Meetings.UnknownFiltersIgnored | src/controllers/meetings.controller.ts:73-78 | unknown status and type queries list as if absent |
| Meetings.StatusListItems | src/controllers/meetings.controller.ts:100-110 | at most 200 matching meetings, ascending by start, and no meeting left out starts earlier than one kept; no meeting more often than it is stored, and when fewer each match exactly as often as it is stored |
| Meetings.LastMark | src/controllers/meetings.controller.ts:118-122 | a meeting has a mark exactly when an attendance exists for it and the user, with that attendance's time |
| Meetings.LastMarkOfUnique | src/models/Attendance.ts:40 | with one attendance per meeting and user, the mark found is that attendance's |
| Meetings.GatherMarks | src/controllers/meetings.controller.ts:117-122 | the map built in the loop holds exactly each meeting's mark |
| Meetings.Enrich | src/controllers/meetings.controller.ts:124-131 | each meeting is kept in order, with `hasMarked` exactly when an attendance exists and its `markedAt` |
| Meetings.ListMeetingsWithUserStatus | src/controllers/meetings.controller.ts:95-138 | 401 without a caller, 404 when the caller has no user document; otherwise the status list in order, each with `hasMarked` exactly when the user marked it and the time of that mark |
| AttendanceModel.StatusOfText | src/models/Attendance.ts:32 | a status text read back names that status; anything else is refused |
| AttendanceModel.StatusTextRoundTrip | src/models/Attendance.ts:32 | each attendance status reads back from its text |
| AttendanceController.StatusOrPresent | src/controllers/attendance.controller.ts:59 | a known status is kept, anything else becomes present |
| AttendanceController.PointOf | src/controllers/attendance.controller.ts:61-63 | a location is stored exactly when both coordinates are numbers |
| AttendanceController.Geofence | src/controllers/attendance.controller.ts:41-51 | no check without a full geofence; 400 without coordinates; 403 with distance and radius exactly when farther than the radius |
| AttendanceController.Mark | src/controllers/attendance.controller.ts:18-76 | 400 for a bad id before 401, then 404 for an unknown meeting or user, then the geofence, then 409 when already marked; the record has the caller, the status or present, the time given or now, the location |
| AttendanceController.MarkedOnce | src/models/Attendance.ts:40 | marking the same meeting again fails, with 409 once the geofence passes |
| AttendanceController.AddsOneMark | src/controllers/attendance.controller.ts:53-65 | a successful mark adds exactly one record |
| AttendanceController.BoundaryIsInside | src/controllers/attendance.controller.ts:48 | a distance equal to the radius is allowed |
| AttendanceController.AttendanceBook.constructor | src/models/Attendance.ts:27-40 | the collection starts empty and valid |
| AttendanceController.AttendanceBook.MarkAttendance | src/controllers/attendance.controller.ts:18-76 | the result is `Mark`'s, exactly one record is added on success, and the collection stays keyed by meeting and user |
| OneOnOneModel.StatusOfText | src/models/OneOnOne.ts:44 | a status text read back names that status; anything else is refused |
| OneOnOneModel.StatusTextRoundTrip | src/models/OneOnOne.ts:44 | each status reads back from its text |
| OneOnOneModel.Counterparty | src/controllers/oneonone.controller.ts:116 | when the parties differ and the proposer is one of them, the counterparty is the other party |
| OneOnOneController.Create | src/controllers/oneonone.controller.ts:201-240 | 401; 500 exactly for a blank title or location once the handler checks pass; every other error is 400 (a missing field, a blank invitee, an unparsable date and time); otherwise a pending one-on-one from the caller with trimmed title, location, invitee and texts, the description exactly when truthy and trimmed, the parsed start, and no proposal or completion |
| OneOnOneController.CreatedConsistent | src/controllers/oneonone.controller.ts:217-233 | a created one-on-one's start is the parse of its stored date and time |
| OneOnOneController.Approve | src/controllers/oneonone.controller.ts:172-199 | 401, 400 without an id, 404, 400 unless pending, 403 unless the invitee; succeeds exactly for the invitee on a pending one-on-one; only the status changes, to scheduled |
| OneOnOneController.Reschedule | src/controllers/oneonone.controller.ts:66-100 | 401, 400 without an id or without any of date, time and location, 404, 403 unless a party; on success the proposal is replaced by a pending one from the caller with the trimmed fields given; nothing else but `lastActionAt` changes |
| OneOnOneController.OrCurrent | src/controllers/oneonone.controller.ts:122-124 | a proposed value is used when non-empty, else the current one |
| OneOnOneController.Answerable | src/controllers/oneonone.controller.ts:108-119 | 401, 400 without an id, 404, 400 without a pending proposal, 403 for anyone but the counterparty of its proposer; otherwise the stored one-on-one |
| OneOnOneController.Accept | src/controllers/oneonone.controller.ts:103-141 | Answerable's errors, then 400 when the next date and time do not parse; succeeds exactly when answerable and they parse; date, time, location and start take the proposal's values; the status becomes scheduled and the proposal accepted; nothing else changes |
| OneOnOneController.StartOf | src/controllers/oneonone.controller.ts:125-126 | a start instant exists exactly for a parsed value |
| OneOnOneController.Reject | src/controllers/oneonone.controller.ts:144-170 | succeeds exactly when answerable; only the proposal's status, to rejected, and `lastActionAt` change |
| OneOnOneController.Complete | src/controllers/oneonone.controller.ts:29-63 | 401, 400 without an id or proof url, 404, 403 unless the requester, 400 unless scheduled or before the start; succeeds exactly otherwise; sets the proof, completion time and status completed |
| OneOnOneController.StatusFilter | src/controllers/oneonone.controller.ts:275-277 | a status query filters only when it names a status |
| OneOnOneController.ListReceived | src/controllers/oneonone.controller.ts:268-297 | 401 without a caller; at most 200 of the caller's received one-on-ones of that status, latest start first, none left out starts later than one kept; none more often than stored, and when fewer each exactly as often as stored |
| OneOnOneController.ListSent | src/controllers/oneonone.controller.ts:299-328 | 401 without a caller; at most 200 of the caller's sent one-on-ones of that status, latest start first, none left out starts later than one kept; none more often than stored, and when fewer each exactly as often as stored |
| OneOnOneController.ListMine | src/controllers/oneonone.controller.ts:242-266 | 401 without a caller; at most 200 of the one-on-ones the caller is a party to, latest start first, none left out starts later than one kept; none more often than stored, and when fewer each exactly as often as stored |
| OneOnOneController.ListBetween | src/controllers/oneonone.controller.ts:330-359 | 401, then 400 without `otherUid`; at most 200 of the one-on-ones between the two members in either role, latest start first, none left out starts later than one kept; none more often than stored, and when fewer each exactly as often as stored |
| OneOnOneController.BetweenIsSymmetric | src/controllers/oneonone.controller.ts:338-343 | the list between two members is the same whichever of them asks |
| OneOnOneController.SimpleStepsKeepConsistent | src/models/OneOnOne.ts:36-60 | approve, propose, reject and complete keep a record's start consistent with its texts |
| OneOnOneController.AcceptKeepsConsistent | src/controllers/oneonone.controller.ts:122-131 | accepting keeps the start consistent with the new date and time |
| OneOnOneController.ProposerCannotAnswer | src/controllers/oneonone.controller.ts:115-119 | when the parties differ, the proposer can neither accept nor reject their own proposal |
| OneOnOneController.AnsweredOnce | src/controllers/oneonone.controller.ts:112-114 | an accepted or rejected proposal cannot be answered again |
| OneOnOneController.ParsedTextsNotBlank | src/controllers/oneonone.controller.ts:8-16 | texts the parser accepts are not blank |
| OneOnOneController.ProposedSlot | src/controllers/oneonone.controller.ts:82-93 | a full proposal by a party is pending, and its next date, time and location are the trimmed ones proposed |
| OneOnOneController.ProposeThenAccept | src/controllers/oneonone.controller.ts:66-141 | after a party proposes a parsable slot, the counterparty's acceptance moves the one-on-one to that slot, scheduled |
| OneOnOneController.AcceptReopensCompleted | src/controllers/oneonone.controller.ts:103-132 | accepting a proposal on a completed one-on-one sets it back to scheduled while it keeps its proof and completion time |
| OneOnOneController.SaveKeepsConsistent | src/models/OneOnOne.ts:36-60 | saving a consistent record keeps the collection consistent |
| OneOnOneController.OneOnOneStore.constructor | src/models/OneOnOne.ts:36-62 | the collection starts empty and valid |
| OneOnOneController.OneOnOneStore.CreateOneOnOne | src/controllers/oneonone.controller.ts:222-235 | the result is `Create`'s, one entry is added on success, and the collection stays consistent |
| OneOnOneController.OneOnOneStore.ApproveOneOnOne | src/controllers/oneonone.controller.ts:181-193 | the result is `Approve`'s and only that entry changes |
| OneOnOneController.OneOnOneStore.RequestReschedule | src/controllers/oneonone.controller.ts:75-94 | the result is `Reschedule`'s and only that entry changes |
| OneOnOneController.OneOnOneStore.AcceptReschedule | src/controllers/oneonone.controller.ts:110-135 | the result is `Accept`'s and only that entry changes |
| OneOnOneController.OneOnOneStore.RejectReschedule | src/controllers/oneonone.controller.ts:151-164 | the result is `Reject`'s and only that entry changes |
| OneOnOneController.OneOnOneStore.CompleteOneOnOne | src/controllers/oneonone.controller.ts:38-57 | the result is `Complete`'s and only that entry changes |
| ReferralModel.StatusOfText | src/models/Referral.ts:57 | a status text read back names that status; anything else is refused |
| ReferralModel.StatusTextRoundTrip | src/models/Referral.ts:57 | each referral status reads back from its text |
| ReferralModel.TypeOfText | src/models/Referral.ts:49 | "member" and "manual" and nothing else name the two types |
| Referrals.AttachmentsAsWritten | src/controllers/referrals.controller.ts:55 | the attachments as the source maps and filters them: none stored with an empty url |
| Referrals.MissingUrlKeptAsWritten | src/controllers/referrals.controller.ts:55 | an entry without a url is kept with the url "undefined" |
| Referrals.Attachments | src/controllers/referrals.controller.ts:55 | exactly the entries that carry a non-empty url are stored, with their names |
| Referrals.AttachmentsAgreeWithUrls | src/controllers/referrals.controller.ts:55 | when every entry has a url the two readings agree |
| Referrals.AttachmentsAppend | src/controllers/referrals.controller.ts:55 | the attachments of a concatenation are those of each part |
| Referrals.ContactOf | src/controllers/referrals.controller.ts:47-52 | a manual contact whose fields survive trimming is schema-valid; name, business name and category are the trimmed input; the e-mail is stored exactly when truthy, trimmed and lower-cased |
| Referrals.CreateReferral | src/controllers/referrals.controller.ts:6-65 | 401, then 400 in the source's order; 500 for a manual contact of white space only; otherwise a valid pending referral from the caller with the trimmed description, the member uid for a member referral, the trimmed contact for a manual one, the trimmed notes when given, and the attachments that carry a url (the corrected line 55) |
| Referrals.Confirm | src/controllers/referrals.controller.ts:68-84 | 401, 404, 403 unless the receiver, 400 unless pending; only the status changes, to confirmed |
| Referrals.ThankNote | src/controllers/referrals.controller.ts:87-113 | the message and amount are checked before the lookup; succeeds exactly for the receiver of a confirmed referral; sets the trimmed message, the amount and status completed |
| Referrals.SettableStatus | src/controllers/referrals.controller.ts:158 | only pending, completed and cancelled can be set, never confirmed |
| Referrals.SetStatus | src/controllers/referrals.controller.ts:151-169 | no ownership check: 401, 400 for a status that cannot be set, 404 for a missing referral; otherwise any signed-in caller sets the status on the referral, and only the status changes |
| Referrals.OnlyReceiverAdvances | src/controllers/referrals.controller.ts:75-102 | anyone but the receiver can neither confirm nor thank |
| Referrals.ConfirmThenThank | src/controllers/referrals.controller.ts:68-113 | after the receiver confirms, a valid thank-you note completes the referral with that amount |
| Referrals.NoThanksBeforeConfirm | src/controllers/referrals.controller.ts:103 | a pending referral cannot be thanked |
| Referrals.HandlersKeepValid | src/models/Referral.ts:45-58 | confirm, thank and set-status keep a referral schema-valid |
| Referrals.ListGiven | src/controllers/referrals.controller.ts:116-127 | 401 without a caller; exactly the caller's given referrals, each as often as stored, newest first, so the count is their number |
| Referrals.StatusFilter | src/controllers/referrals.controller.ts:135-140 | the trimmed status query filters exactly when it names a status |
| Referrals.ListTaken | src/controllers/referrals.controller.ts:130-148 | 401 without a caller; exactly the caller's received referrals of that status, each as often as stored, newest first |
| Referrals.UnknownStatusListsAll | src/controllers/referrals.controller.ts:138-140 | a status query outside the enum lists everything received |
| Referrals.StatusNarrowsTaken | src/controllers/referrals.controller.ts:135-142 | the list of one status is the unfiltered list's referrals with that status |
| Referrals.ReferralStore.constructor | src/models/Referral.ts:45-60 | the collection starts empty and valid |
| Referrals.ReferralStore.CreateReferralDoc | src/controllers/referrals.controller.ts:59 | the result is `CreateReferral`'s, one entry is added on success, and the collection stays valid |
| Referrals.ReferralStore.ConfirmReferral | src/controllers/referrals.controller.ts:73-78 | the result is `Confirm`'s and only that entry changes |
| Referrals.ReferralStore.SubmitThankNote | src/controllers/referrals.controller.ts:93-107 | the result is `ThankNote`'s and only that entry changes |
| Referrals.ReferralStore.UpdateReferralStatus | src/controllers/referrals.controller.ts:158-163 | the result is `SetStatus`'s and only that entry changes |
| Requirements.TrimIfString | src/controllers/requirements.controller.ts:22-27 | a string field is stored trimmed; anything else is absent |
| Requirements.PublicOf | src/controllers/requirements.controller.ts:26 | `isPublic` is true when not sent, else the truthiness sent |
| Requirements.CreateRequirement | src/controllers/requirements.controller.ts:9-34 | 401, then 400 unless the title is a non-blank string, 500 for a timeline that is not a date; otherwise a valid requirement of the caller with the trimmed title, public by default, the timeline given, and description, category, budget and tagged member stored trimmed exactly when they were strings |
| Requirements.ResponderUserId | src/controllers/requirements.controller.ts:158-162 | the responder's user id is recorded exactly when a user document exists |
| Requirements.Respond | src/controllers/requirements.controller.ts:139-170 | 401, 400 for a blank message before 400 for a bad id, 404; 403 exactly when the requirement is private and the caller is neither tagged nor its creator; the answer carries the caller and the trimmed message |
| Requirements.PostedByDefaultIsOpen | src/controllers/requirements.controller.ts:26 | a requirement posted without `isPublic` can be answered by any signed-in member |
| Requirements.TaggedMemberMayRespond | src/controllers/requirements.controller.ts:27 | the tagged member of a requirement can answer it |
| Requirements.PrivateIsClosed | src/controllers/requirements.controller.ts:154-156 | only the creator and the tagged member get an answer into a private requirement |
| Requirements.ListPublic | src/controllers/requirements.controller.ts:37-44 | at most the clamped limit (default 20, at most 50), public only, newest first, none left out newer than one kept; none more often than stored, and under the limit each exactly as often as stored |
| Requirements.PublicListIgnoresPrivate | src/controllers/requirements.controller.ts:42 | adding private requirements does not change the public list |
| Requirements.ListMine | src/controllers/requirements.controller.ts:95-102 | 401 without a caller; at most 50 of the caller's own requirements, newest first, none left out newer than one kept; none more often than stored, and when fewer each exactly as often as stored |
| Requirements.ListResponses | src/controllers/requirements.controller.ts:173-182 | 400 for a bad id; exactly the answers to that requirement, each as often as stored, newest first |
| Requirements.ResponseIsListed | src/controllers/requirements.controller.ts:159-182 | an accepted answer appears in its requirement's list |
| Requirements.RequirementBoard.constructor | src/models/Requirement.ts:14-26 | both collections start empty and valid |
| Requirements.RequirementBoard.PostRequirement | src/controllers/requirements.controller.ts:19-29 | the result is `CreateRequirement`'s, one requirement is added on success, and the answers are untouched |
| Requirements.RequirementBoard.PostResponse | src/controllers/requirements.controller.ts:152-164 | the result is `Respond`'s, one answer is added on success, and every answer keeps a stored requirement |
| Stats.Weekday | src/controllers/stats.controller.ts:9 | `getDay()` is between 0 (Sunday) and 6 |
| Stats.StartOfWeek | src/controllers/stats.controller.ts:7-13 | the result is the local midnight of the Monday on or before the instant, within the six days before it |
| Stats.WeekStartUnique | src/controllers/stats.controller.ts:7-13 | an instant has only one week start, so the contract fixes the result |
| Stats.SameWeekSameStart | src/controllers/stats.controller.ts:10 | every day of a Monday-to-Sunday week has the same week start |

## Left out

- Routes, the token check of the auth middleware and the database connection. The caller's uid arrives as a parameter.
- The generic 500 answer of every handler's `catch`, including the cast error that a malformed id gives `findById`. An id that names no record gives 404 here.
- Concurrency. This includes the duplicate-key fallback of `createOrUpdateRegistration`: two upserts racing on one uid give 200 with the existing record.
- Number parsing of query and body values (`Number`, `parseInt`, `Number.isFinite`). Limits arrive as integers, absent when not a number. The thank-you amount arrives absent when it is not a finite number.
- `String(...)` coercion of non-string body fields. Text fields arrive as text.
- Time zones and daylight saving. Local time is treated as a plain count of milliseconds.
- Several `new Date()` calls in one handler. They are modelled as one `now`.
- `createdAt`/`updatedAt` timestamps. A record's `createdAt` is the `now` of its creation.
- Sort order among records with equal keys. The database's tie order is not specified.
- Case folding outside ASCII. `toLowerCase()` and the case-insensitive search treat only A-Z.
- The legacy `participantAUid`/`participantBUid` fields of the one-on-one lists.
- The joins (`$lookup`, `$unwind`, `$project`) of the requirement lists and the responses list. Only their filter, sort and limit are modelled. For search, the member and business projection is modelled.
- Referrals.CreateReferral: it stores the corrected attachments of line 55, so an attachment without a url is dropped. The code as written keeps it with the url "undefined"; `Referrals.AttachmentsAsWritten` models that and the Findings table records it.
- Referrals.ReferralStore.CreateReferralDoc: it stores what `Referrals.CreateReferral` returns, so it drops an attachment without a url in the same way.
- BusinessController.Apply: it assumes Mongoose 6 or later, which drops `undefined` keys from `$set`. Under Mongoose 5 a falsy e-mail would be written as null and the stored e-mail cleared. The source does not pin the version.
- The projected business of a member without a business is `None`. The database returns an empty object there.
- `Registration.ts` and the `userId` field of a business. No handler of this core writes them.
- The overview counts of `getOverview`. Only `startOfWeek` is modelled.
- Stats.StartOfWeek: it works in days. The month and year arithmetic of `setDate` is not modelled, and neither is the clock change of daylight saving.
- The haversine formula. The distance is a function parameter, and the geofence is proved for any distance function.
- Floating-point coordinates and amounts. They are `real`.
- Requirements.CreateRequirement: the `timeline` value arrives already read as a date. A value that is not a date gives the 500 of the schema's date cast.
- BusinessController.NormalizeProductsIdempotent: it requires that no id sent was white space only. Such an id is stored as "" and dropped on the next round, so sending the result back would lose it.

## Findings

| source | as written | input that shows it | evidently intended | confidence | as-written member | corrected member |
|---|---|---|---|---|---|---|
| src/controllers/referrals.controller.ts:55 | `String(a?.url)` turns a missing url into the text "undefined", which passes the `!!a.url` filter | an attachment `{}` or `{ name: "x" }` without a url | entries without a url are dropped, and every stored attachment has a real url | not executed | Referrals.MissingUrlKeptAsWritten | Referrals.Attachments |
