# Local-services marketplace front end: a Dafny model of its screen logic

This project models the logic of three screens of a React front end for a
local-services marketplace, where customers look for plumbers, tutors and
electricians. Everything else in the front end is markup.

- **Professional search** (`Listings`). A fixed list of four listing records
  goes through a filter/sort pipeline driven by the screen's query state:
  - a case-insensitive search over name and role;
  - an "available today" toggle;
  - an optional category route parameter;
  - a "top rated" toggle (rating at least 4.8);
  - an "under $60" toggle;
  - a sort selector: rating descending, price ascending, or left alone.

  The filters are applied one after another as the source does. The model
  proves that they amount to a single conjunction. The sort is
  `Array.prototype.sort`, which ECMA-262 requires to be stable. `StableSort`
  models it as an insertion sort and proves it ordered, a permutation,
  stable within each key class, and idempotent.
- **Customer profile** (`ProfileSchema`, `ProfilePage`).
  - The form schema reports, for each field, the message of its first
    failing rule. The date-of-birth rule is calendar arithmetic on
    (year, month, day) triples.
  - The avatar-image gate checks a MIME whitelist and a 5 MiB limit.
  - The edit lifecycle is a state machine over the committed snapshot
    (`saved`), the form draft, the editing/loading/success flags and the
    chosen image. Each event is a pure transition. What the screen disables
    or hides is captured by `Enabled`.
- **Login** (`LoginPage`). A password-length rule plus a mock authenticator
  that accepts exactly `test@example.com`. It is modelled as a state machine
  whose submission is split into the click and the reply.

Ratings and distances are decimal numbers in the source. Here they are whole
tenths, so 4.8 becomes 48. The e-mail and URL grammars belong to the
validation library and are not modelled: they are passed in as a `Formats`
value, or as an `isEmail` predicate for login. "Today" is a parameter of
validation. The simulated delays are discrete events: `SaveSucceeded`,
`SaveFailed`, `ReplyArrived` and `BannerExpired`.

The age rule accepts a birth date exactly 18 years before today. When the
year difference is 18 and the month difference is 0, the code
(`src/pages/dashboard/customer/ProfilePage.jsx:60-66`) rejects only a
negative day difference. See `ProfileSchema.EighteenthBirthdayAccepted`.

## Model

| member | source | states |
|---|---|---|
| `Listings.View` | src/pages/FindProfessionals.jsx:75-118 | The displayed list is never longer than the records. A record appears in it iff it is one of the records and satisfies every active condition. |
| `Listings.Narrow` | src/pages/FindProfessionals.jsx:79-106 | One `filter` call keeps exactly the elements that pass, as an order-preserving subsequence of its input. |
| `Listings.NarrowKeepsCounts` | src/pages/FindProfessionals.jsx:79-106 | One `filter` call keeps every occurrence of each passing element and none of a failing one. |
| `Listings.Selection` | src/pages/FindProfessionals.jsx:79-106 | The reference selection is an order-preserving subsequence of the records, holding exactly the records every active condition admits. |
| `Listings.SelectionKeepsCounts` | src/pages/FindProfessionals.jsx:79-106 | The reference selection holds each admitted record exactly as often as the records do, and no other record. |
| `Listings.FiltersAreConjunctive` | src/pages/FindProfessionals.jsx:79-106 | The chain of filters, applied in the source's order, equals one pass that keeps the records satisfying the conjunction of the active conditions, in their original order. |
| `Listings.ViewIsRearrangedSelection` | src/pages/FindProfessionals.jsx:76-117 | The displayed list is a permutation of that selection, and the selection is a subsequence of the records. |
| `Listings.UnfilteredViewIsData` | src/pages/FindProfessionals.jsx:75-118 | With empty search, all toggles off, no category and a sort key other than rating or price, the displayed list equals the records in declaration order. |
| `Listings.InitialViewIsData` | src/pages/FindProfessionals.jsx:67-118 | When the route carries no category, the screen's starting query shows every record in declaration order. |
| `Listings.OtherSortKeepsOrder` | src/pages/FindProfessionals.jsx:108-117 | Any sort key other than "rating" or "price" leaves the filtered records in the records' relative order. |
| `Listings.RatingSortIsStableDescending` | src/pages/FindProfessionals.jsx:109-111 | Sorting by rating gives non-increasing ratings. Records with equal ratings keep their filtered order. |
| `Listings.PriceSortIsStableAscending` | src/pages/FindProfessionals.jsx:113-115 | Sorting by price gives non-decreasing prices. Records with equal prices keep their filtered order. |
| `Listings.RankingIdempotent` | src/pages/FindProfessionals.jsx:108-115 | For every sort key, ranking an already ranked list returns it unchanged. |
| `Listings.PlumberCategoryExample` | src/pages/FindProfessionals.jsx:19-97 | A category parameter that lower-cases to "plumber" yields exactly the Marcus Thorne / Licensed Plumber record. |
| `Listings.PlumberSelection` | src/pages/FindProfessionals.jsx:19-97 | With only a category that lower-cases to "plumber", the only selected record is the plumber's; the other three categories differ from it. |
| `Listings.UnderSixtyExample` | src/pages/FindProfessionals.jsx:19-106 | With only "Under $60" on, the result is exactly the $45 David Chen record. |
| `Listings.TopRatedExample` | src/pages/FindProfessionals.jsx:19-101 | With only "Top Rated" on, the result is Arthur Miller, Sarah Jenkins and David Chen, in that order. |
| `Listings.TopRatedByRatingExample` | src/pages/FindProfessionals.jsx:19-111 | With "Top Rated" on and sorted by rating, the result is Sarah Jenkins (5.0), Arthur Miller (4.9), David Chen (4.8). |
| `StableSort.Sort` | src/pages/FindProfessionals.jsx:109-115 | The sort returns a permutation of its input whose keys never decrease. |
| `StableSort.SortIsStable` | src/pages/FindProfessionals.jsx:109-115 | Within every key class, the sorted sequence lists the elements in their order before sorting. |
| `StableSort.SortOfSortedIsIdentity` | src/pages/FindProfessionals.jsx:109-115 | A sequence whose keys already never decrease comes back from the sort unchanged. |
| `StableSort.SortIdempotent` | src/pages/FindProfessionals.jsx:113-115 | Sorting a sorted result again gives the same sequence. |
| `Text.Includes` | src/pages/FindProfessionals.jsx:82-83 | `includes` is true iff the needle occurs as a contiguous run somewhere in the string. |
| `ProfileSchema.NoErrorsIffConforms` | src/pages/dashboard/customer/ProfilePage.jsx:27-71 | The error map is empty iff the profile meets the field-by-field reference rules, which gate submission. |
| `ProfileSchema.LengthRules` | src/pages/dashboard/customer/ProfilePage.jsx:28-44 | Name is accepted iff its length is at least 2. Address needs at least 5. Preferred service and time slot need at least 2. Alternate phone and special instructions accept every string, including "". |
| `ProfileSchema.PhoneRule` | src/pages/dashboard/customer/ProfilePage.jsx:37-40 | The phone is accepted iff it has at least 10 characters, all decimal digits. A short phone reports the length message, a long non-digit one the digits message. |
| `ProfileSchema.PhoneExamples` | src/pages/dashboard/customer/ProfilePage.jsx:37-40 | "12345" gets the length message. "abcdefghij" gets the digits message. |
| `ProfileSchema.DobRule` | src/pages/dashboard/customer/ProfilePage.jsx:45-69 | A blank date of birth gets "required". A day on or after today is rejected. A calendar day is accepted iff the eighteenth birthday has arrived. An unparseable string is let through. |
| `ProfileSchema.DobRefinementIsOfAge` | src/pages/dashboard/customer/ProfilePage.jsx:48-69 | The year/month/day-difference refinement accepts a day iff (year+18, month, day) is on or before today. This equals the reference rule "more than 18 years, or exactly 18 with today's (month, day) at or past the birth's". |
| `ProfileSchema.EighteenthBirthdayAccepted` | src/pages/dashboard/customer/ProfilePage.jsx:56-68 | A birth date exactly 18 years before today is accepted. |
| `ProfileSchema.ImageGate` | src/pages/dashboard/customer/ProfilePage.jsx:117-127 | A file is accepted iff its type is one of image/jpeg, image/png, image/gif, image/webp and its size is at most 5 242 880 bytes. A file of the wrong type is reported as such whatever its size. |
| `ProfileSchema.ImageExamples` | src/pages/dashboard/customer/ProfilePage.jsx:117-127 | A 6 MiB PNG is too large. A 2 MiB BMP has the wrong type. A 2 MiB PNG and a PNG of exactly 5 MiB are accepted. |
| `ProfilePage.InitialStateSatisfiesInvariant` | src/pages/dashboard/customer/ProfilePage.jsx:74-98 | The starting state (viewing, draft equal to the seeded snapshot, nothing loading) satisfies the screen invariant. |
| `ProfilePage.StepPreservesInvariant` | src/pages/dashboard/customer/ProfilePage.jsx:148-196 | Every handler keeps three facts: outside editing the draft equals the snapshot; a save is in flight iff loading; loading only while editing. |
| `ProfilePage.RunPreservesInvariant` | src/pages/dashboard/customer/ProfilePage.jsx:74-196 | Every sequence of events keeps the invariant. |
| `ProfilePage.SnapshotReplacedWhole` | src/pages/dashboard/customer/ProfilePage.jsx:148-185 | No event changes the snapshot except a successful save. That save replaces it whole with the draft it carried. |
| `ProfilePage.CancelRestoresSnapshot` | src/pages/dashboard/customer/ProfilePage.jsx:191-196 | Cancel resets the draft to the snapshot, clears file and preview, and leaves editing. The snapshot is untouched. |
| `ProfilePage.CancelRoundTrip` | src/pages/dashboard/customer/ProfilePage.jsx:187-196 | Edit, change the draft, cancel: the draft and the snapshot are back to what they were. |
| `ProfilePage.RemoveImageClears` | src/pages/dashboard/customer/ProfilePage.jsx:140-146 | Removing the image clears file and preview and changes nothing else. |
| `ProfilePage.ImageChoice` | src/pages/dashboard/customer/ProfilePage.jsx:113-138 | An accepted file becomes the chosen file and nothing else changes. A rejected file changes nothing, so the previous file and preview stay. |
| `ProfilePage.SubmitGate` | src/pages/dashboard/customer/ProfilePage.jsx:549-555 | From a state that is not loading, a save starts iff the screen is editing and the draft meets every field rule. The request carries that draft. |
| `ProfilePage.SuccessfulSave` | src/pages/dashboard/customer/ProfilePage.jsx:148-185 | Submit then success: the snapshot and the draft become the submitted draft. Editing ends, the banner shows, the image is cleared, and loading ends. |
| `ProfilePage.SaveFailureOnlyStopsLoading` | src/pages/dashboard/customer/ProfilePage.jsx:179-184 | A failed save only clears the loading flag and its pending request. |
| `ProfilePage.FailedSaveIsNoOp` | src/pages/dashboard/customer/ProfilePage.jsx:148-184 | Submit then failure returns exactly the state before the submit: same snapshot, same draft, still editing. |
| `ProfilePage.Initials` | src/pages/dashboard/customer/ProfilePage.jsx:199-201 | The result has one character. It is "U" for an empty name. Otherwise it is the name's first character, not lower case, equal to it ignoring case. |
| `ProfilePage.InitialsExamples` | src/pages/dashboard/customer/ProfilePage.jsx:199-201 | "" gives "U". "john" and "John Doe" give "J". |
| `LoginPage.PasswordRule` | src/pages/Login.jsx:39 | The password passes iff it has at least 6 characters. |
| `LoginPage.StepPreservesInvariant` | src/pages/Login.jsx:55-75 | A request is pending iff the screen is loading, across every event. |
| `LoginPage.SubmissionStartsLoading` | src/pages/Login.jsx:56-58 | A submission clears the server error and sets loading. |
| `LoginPage.SubmissionOutcome` | src/pages/Login.jsx:55-75 | After the reply, success holds iff the e-mail is "test@example.com". The error is then null; otherwise it is "Invalid email or password. Try test@example.com". Loading is off either way. |
| `LoginPage.SuccessIsAbsorbing` | src/pages/Login.jsx:45-77 | No event turns success off. |
| `LoginPage.SuccessPersists` | src/pages/Login.jsx:45-77 | Success survives every sequence of events. |
| `LoginPage.SuccessOnlyFromDemoEmail` | src/pages/Login.jsx:63-67 | Success starts only with the reply to a request that carried the demo address. |

## Left out

- Rendering, CSS and React hook mechanics. `useMemo` memoisation only avoids recomputation, so `Listings.View` is a plain function of the query and the records. The `form.reset(savedData)` effect is folded into the `SaveSucceeded` transition.
- The records are never mutated, because every function here is pure. The source's copy (`[...data]`) therefore needs no model.
- The e-mail and URL grammars (`ProfilePage.jsx:29, 34`, `Login.jsx:38`) belong to the validation library, so they are parameters.
- JavaScript `Date` parsing and time zones. Dates are (year, month, day) triples. The "not today or later" guard compares days rather than instants. For a birth date equal to today, the source fails either that guard or the age rule, depending on the time zone and the hour. The verdict is the same.
- `ProfileSchema.DobRule`: the model assumes the parsed date's local calendar fields equal the typed ones. West of UTC the source reads the previous day, and this is not modelled.
- A non-empty date string that `Date` cannot parse is modelled as written: every comparison with the invalid date is false, so the refinement accepts it. The date input only produces "" or well-formed dates.
- `FileReader` and data URLs. The preview is an opaque string set by the `PreviewRead` event, which is not gated, like the reader's callback. `alert`, `console.log` and the reset of the file input element through `document.getElementById` are left out too.
- The `setTimeout` delays (1500 ms mock calls, 3 s banner) are the discrete events `SaveSucceeded`/`SaveFailed`, `ReplyArrived` and `BannerExpired`. The source's mock save never throws; `SaveFailed` models its catch branch.
- Floating-point ratings and distances are replaced by integer tenths.
- `Listings.MatchesSearch`, `Listings.SameCategory`: lower-casing covers ASCII letters only; JavaScript's full Unicode case mapping is not modelled.
- `Listings.SameCategory`: the category comparison uses `toLocaleLowerCase` (`FindProfessionals.jsx:94-95`), whose result depends on the browser's locale. In a Turkish or Azeri locale "I" lowers to dotless "ı", so a route such as "ELECTRICIAN" matches no record there. The model always lowers "I" to "i", as in every other locale.
- `ProfilePage.Initials`: upper-cases ASCII letters only. Full Unicode mapping can turn one character into two (for example "ß" into "SS"), and this is not modelled.
- String lengths count Unicode scalar values, not UTF-16 code units, so they differ for characters outside the Basic Multilingual Plane.
- Form fields are always strings. The `undefined` case of the optional fields cannot arise from the form.
- Only the first message per field is modelled, the one the form displays. The validation library collects all of them.
- In `onChange` mode the form's error list covers only touched fields. Submission validates every field first, so `Enabled` gates `SubmitClicked` on the full error map.
- Login's `error.message || "Something went wrong…"` fallback is unreachable, because the thrown message is never empty. The password-visibility toggle is modelled; the "Go to Dashboard" page reload is not.
- The other files of the front end (navigation bar, location picker, search bar, service cards, recommended professionals, home page, routing) are markup, routing or library wrappers, and are not part of this model.
