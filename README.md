# Navagatha Tech site: staff login and job postings, modelled in Dafny

This project models the part of the Navagatha Tech website that does more than render pages:

- the passwordless staff login: a six-digit one-time code is mailed to an address of the organisation, then exchanged for a signed session cookie;
- the HR-only administration of the job postings kept in one JSON document;
- the schema.org JSON-LD builders that describe breadcrumbs, FAQ pages and job postings.

The model is split into these modules:

- `Optional` and `Text` hold the JavaScript built-ins the code relies on. They cover `Number.prototype.toString`, `toLowerCase`, `toUpperCase`, `endsWith`, the slug `replace`, and string falsiness.
- `Auth` holds the code store, as a class whose `entries` map is updated in place. It also holds the session token and the cookie jar.
- `Jobs` holds the posting repository, as a class whose `jobs` sequence stands for the JSON document.
- `Http`, `OtpRoute`, `VerifyRoute`, `AdminJobsRoute` and `AdminJobByIdRoute` model the API handlers. Each handler is a method. It takes the outcomes of its collaborators as parameters: the configured API key, the parsed body, the session from `getSession()`, the mail service's error flag, and whether the jobs document could be read and written. It returns the status and body, and it changes the store, the cookie and the repository as the source does.
- `Schema` holds the JSON-LD builders.
- `Flows` holds two whole request sequences on a fresh server. The first is HR signing in and listing postings, with a replayed code refused. The second is creating, finding and renaming a posting.

The clock (`Date.now()`, in milliseconds) and the draw of `Math.random()` are parameters everywhere.

Some behaviour of the code that a reader might not expect:

- `updateJob` does not recompute the slug when the title changes. Only the PATCH handler derives it.
- An `id` in an update overwrites the stored id. Nothing keeps it immutable.
- The domain check is a case-sensitive `endsWith`. It is not a case-insensitive comparison.
- A failed OTP mail answers 500 but leaves the issued code in the store.
- The verify handler answers 500 on any exception.

## Model

| member | source | states |
|---|---|---|
| `Text.NatToDecimal` | lib/auth.ts:13 | `toString` of a non-negative integer is a non-empty digit string without leading zeros ("0" for zero) |
| `Text.DecimalRoundTrip` | lib/auth.ts:13 | reading back the printed numeral gives the number |
| `Text.DecimalLength` | lib/auth.ts:13 | a number in [10^(k-1), 10^k) prints with exactly k digits |
| `Text.DecimalInjective` | lib/jobs.ts:36 | distinct numbers print differently |
| `Text.ToLower` | app/api/admin/jobs/route.ts:31 | lower-casing keeps the length, leaves no ASCII capital, keeps every other character and maps each capital to its small letter |
| `Text.ToUpper` | lib/schema.ts:204 | upper-casing keeps the length, leaves no ASCII small letter, keeps every other character and maps each small letter to its capital |
| `Text.ToUpperIgnoresCase` | lib/schema.ts:204 | upper-casing gives the same result whether or not the input was lower-cased first |
| `Text.SpacesToHyphens` | app/api/admin/jobs/route.ts:31 | the global replace turns every space, and nothing else, into a hyphen and keeps the length |
| `Text.EndsWithIffConcat` | app/api/auth/otp/route.ts:19 | `endsWith` holds exactly when the string is some prefix followed by the suffix |
| `Auth.OtpNumber` | lib/auth.ts:13 | `floor(100000 + r * 900000)` lies in [100000, 999999] for every draw 0 <= r < 1 |
| `Auth.OtpCode` | lib/auth.ts:13 | the issued code is six decimal digits whose value is that number |
| `Auth.CheckCode` | lib/auth.ts:21-36 | verification succeeds exactly for a present, unexpired (`now <= expires`), matching challenge. A missing entry leaves the store unchanged. An expired one is deleted even when the code matches. A match consumes the entry. A mismatch leaves the store unchanged. Other emails are never touched |
| `Auth.Issue` | lib/auth.ts:14-17 | issuing leaves exactly one challenge for the email, with that code and an expiry 300000 ms later. Any earlier challenge for it is replaced and other emails are kept |
| `Auth.IssuedCodeVerifies` | lib/auth.ts:12-33 | a freshly issued code is accepted at any time up to five minutes later, whatever was stored before |
| `Auth.IssuedCodeExpires` | lib/auth.ts:14-28 | after five minutes the issued code is refused and its challenge removed |
| `Auth.CodeIsSingleUse` | lib/auth.ts:30-33 | once a code is accepted, every later attempt for that email fails |
| `Auth.WrongGuessesKeepChallenge` | lib/auth.ts:30-35 | any run of wrong guesses made before the expiry leaves the store exactly as it was |
| `Auth.RetryThenSucceed` | lib/auth.ts:25-35 | after any run of wrong guesses, the right code is still accepted up to the expiry |
| `Auth.OtpStore.constructor` | lib/auth.ts:10 | the store starts empty |
| `Auth.OtpStore.GenerateOTP` | lib/auth.ts:12-19 | `generateOTP` returns the six-digit code for the draw and leaves the store as `Issue` describes |
| `Auth.OtpStore.VerifyOTP` | lib/auth.ts:21-36 | `verifyOTP` answers and updates the store as `CheckCode` describes |
| `Auth.SignSession` | lib/auth.ts:38-43 | the signed token carries the email, an issued-at second containing the current instant, and an expiry 24 hours (86400 s) later |
| `Auth.ReadSession` | lib/auth.ts:53-64 | `getSession` gives the token's email exactly when a cookie is present, its signature verifies and the current second is before its expiry, and otherwise null |
| `Auth.SessionLastsADay` | lib/auth.ts:42 | a fresh session is accepted until one second short of 24 hours and refused from the 24-hour mark on |
| `Auth.CookieJar.CreateSession` | lib/auth.ts:38-51 | `createSession` stores the token signed now as the session cookie |
| `Auth.CookieJar.Logout` | lib/auth.ts:66-68 | `logout` deletes the cookie |
| `Jobs.WithIdRoundTrip` | lib/jobs.ts:34-36 | attaching an id keeps every field of the draft, and a posting is its draft plus its id |
| `Jobs.CreationIdsDiffer` | lib/jobs.ts:36 | ids from `Date.now().toString()` coincide exactly when the creation milliseconds do |
| `Jobs.MergeLaws` | lib/jobs.ts:47 | an empty update changes nothing. Applying an update twice equals applying it once. Two updates in a row equal one combined update |
| `Jobs.MergeDerivesNothing` | lib/jobs.ts:47 | the merge keeps the slug unless the update carries one, even when the title changes, and an id in the update overwrites the stored id |
| `AdminJobByIdRoute.MergeAsWritten` | lib/jobs.ts:47 | the spread merge on a stored JSON record whose slug may be missing: a slug key absent from the update keeps the stored slug, one holding `undefined` removes it, and a present value replaces it |
| `Jobs.FirstWhere` | lib/jobs.ts:44 | `findIndex` returns the first position satisfying the test, and nothing only when no position does |
| `Jobs.WithoutId` | lib/jobs.ts:55 | the filter keeps exactly the postings with another id. Its length is unchanged exactly when no posting has the id, and then it returns the collection itself |
| `Jobs.WithoutIdAppend` | lib/jobs.ts:55 | the filter keeps the survivors in their original order (it distributes over concatenation) |
| `Jobs.WithoutIdIdempotent` | lib/jobs.ts:52-60 | deleting an id twice is the same as deleting it once |
| `Jobs.AddThenFindBySlug` | lib/jobs.ts:25-40 | after `addJob`, a slug lookup finds the new posting unless an earlier posting already has that slug |
| `Jobs.JobRepository.constructor` | lib/jobs.ts:20-23 | the repository holds the stored document's postings |
| `Jobs.JobRepository.GetJobBySlug` | lib/jobs.ts:25-28 | `getJobBySlug` returns the first posting with the slug, or nothing exactly when none has it. It changes nothing |
| `Jobs.JobRepository.AddJob` | lib/jobs.ts:34-40 | `addJob` appends exactly one posting, the draft with id `now.toString()`, after the unchanged earlier ones, and returns it |
| `Jobs.JobRepository.UpdateJob` | lib/jobs.ts:42-50 | `updateJob` with an unknown id returns nothing and changes nothing. Otherwise it replaces only the first posting with that id by the merge and returns the merged posting |
| `Jobs.JobRepository.DeleteJob` | lib/jobs.ts:52-60 | `deleteJob` reports whether some posting had the id. If so it removes every such posting and keeps the rest in order. If not it changes nothing |
| `OtpRoute.EmailGuardExamples` | app/api/auth/otp/route.ts:19 | the domain guard admits `hr@navagathatech.com` and refuses upper-case, look-alike, extended, empty and missing addresses |
| `OtpRoute.Post` | app/api/auth/otp/route.ts:8-58 | a missing API key gives 500 before anything else. An unparsable body gives 500. A missing or foreign email gives 403. Each of these leaves the store alone and mails nothing. Otherwise the code is issued once and that same code is mailed to the email; the answer is 500 on a send error (the code stays stored) and 200 `{success: true}` otherwise |
| `VerifyRoute.Post` | app/api/auth/verify/route.ts:4-25 | an unparsable body gives 500. A missing or empty email or code gives 400 without touching the store. Otherwise the store changes as `CheckCode` says. A refused code gives the same 401 message whether it was wrong or expired, and no cookie is set. An accepted one sets the session cookie for the email and gives 200 |
| `AdminJobsRoute.TokenAuthorizesOnlyHr` | app/api/admin/jobs/route.ts:8 | a live session authorises exactly when it was signed for `hr@navagathatech.com` |
| `AdminJobsRoute.DeriveSlug` | app/api/admin/jobs/route.ts:31 | the slug of a title has the same length. Each space becomes `-` and each ASCII capital becomes its small letter. Every other character is kept, so the slug has no space and no capital |
| `AdminJobsRoute.DeriveSlugIdempotent` | app/api/admin/jobs/route.ts:31 | deriving a slug from a slug gives it back |
| `AdminJobsRoute.DeriveSlugExamples` | app/api/admin/jobs/route.ts:31 | "QA Engineer" gives "qa-engineer" and "Senior QA Engineer" gives "senior-qa-engineer" |
| `AdminJobsRoute.CreatedPostingIgnoresBodyIdAndSlug` | app/api/admin/jobs/route.ts:29-32 | a created posting's slug comes from its title and its id from the clock, whatever the body said |
| `AdminJobsRoute.Get` | app/api/admin/jobs/route.ts:5-18 | without the HR session the answer is 401 whatever the storage does. With it, a failed read gives 500, otherwise 200 with the whole collection in order |
| `AdminJobsRoute.Post` | app/api/admin/jobs/route.ts:20-37 | without the HR session the answer is 401 and nothing changes. An unparsable body, a missing title or a storage failure gives 500 and nothing changes. Otherwise exactly one posting, built from the body with the derived slug and the clock's id, is appended and returned |
| `Schema.ListItemsFrom` | lib/schema.ts:259-264 | the list items number the crumbs consecutively from the first position and copy name and url in order |
| `Schema.GetBreadcrumbSchema` | lib/schema.ts:255-266 | the `BreadcrumbList` has one item per crumb, in order, at positions 1..n |
| `Schema.BreadcrumbRoundTrip` | lib/schema.ts:255-266 | the crumbs can be read back from the list unchanged |
| `Schema.ListItemsAppend` | lib/schema.ts:259-264 | numbering continues across a concatenation of trails |
| `Schema.Questions` | lib/schema.ts:241-248 | one Question per entry, in order, named by the question and answered by the answer |
| `Schema.GetFAQPageSchema` | lib/schema.ts:237-250 | the `FAQPage` lists one Question per entry in order |
| `Schema.FaqRoundTrip` | lib/schema.ts:237-250 | the entries can be read back from the page unchanged |
| `Schema.GetJobPostingSchema` | lib/schema.ts:191-232 | the url is the site's `/careers/` plus the slug, and the identifier is the id. The employment type is the upper-cased type. The posting date is the job's date when non-empty, otherwise now. The offer is valid until 90 days from now. Title, description, locality and category are copied |
| `Schema.PostingUrlIdentifiesSlug` | lib/schema.ts:230 | two postings share a URL exactly when they share a slug |
| `Schema.EmploymentTypeIgnoresCase` | lib/schema.ts:204 | the employment type does not depend on how the type was capitalised |
| `Flows.HrSignIn` | app/api/auth/verify/route.ts:8-20 | asking for a code as HR, then presenting the mailed code within five minutes, gives 200 both times. Replaying the code gives 401. The admin listing then gives 200 with the stored postings |
| `Flows.CreateFindRename` | app/api/admin/jobs/route.ts:29-33 | creating "QA Engineer" makes it findable under "qa-engineer" with the clock's id, and renaming it moves it to "senior-qa-engineer" under the same id |

## The per-posting handlers

The members modelling `PATCH` and `DELETE` of `app/api/admin/jobs/[id]/route.ts` are listed here rather than in the table above, with the lines they model and what their contracts state:

- `AdminJobByIdRoute.PatchSlugAsWritten` (lines 18-21 of that file): as written, the update always carries a slug key. It holds the derived slug exactly when the body has a truthy title, and `undefined` otherwise
- `AdminJobByIdRoute.PatchWithoutTitleErasesSlug` (lines 18-21 of that file): as written, a PATCH without a truthy title leaves the posting it edits with no slug. A lookup by the slug that found the posting before (when it was the only posting with that slug) finds nothing afterwards
- `AdminJobByIdRoute.PatchAsWrittenVersusIntended` (lines 18-21 of that file): the as-written merge equals the intended one when the body has a truthy title. Without one, the intended merge keeps the stored slug and the as-written one drops it
- `AdminJobByIdRoute.PatchUpdate` (lines 18-21 of that file): the update passed to `updateJob` is the body with the slug derived from a truthy title, and with no slug otherwise
- `AdminJobByIdRoute.PatchKeepsSlugInStep` (lines 18-21 of that file): after the PATCH merge, a new title brings its own slug, and an edit without a title keeps the stored slug
- `AdminJobByIdRoute.Patch` (lines 5-31 of that file): without the HR session: 401, nothing changes. An unparsable body or a failed read: 500. An unknown id: 404, nothing changes. A failed save: 500, nothing changes. Otherwise the first posting with the id is merged and returned with 200
- `AdminJobByIdRoute.Delete` (lines 33-53 of that file): without the HR session: 401, nothing changes. A failed read: 500. An unknown id: 404, nothing changes. A failed save: 500, nothing changes. Otherwise every posting with the id is removed, the rest keep their order, and the answer is 200 `{success: true}`

## Left out

- JWT signing and verification through the `jose` library (HS256), the signing secret and its development default. A token is a value with an `authentic` flag and second-granularity `iat`/`exp` claims, in the spirit of section 4.1.4 of RFC 7519.
- The cookie attributes (`httpOnly`, `secure`, `sameSite`, `path`).
- File I/O in `getJobs`/`saveJobs` and JSON (de)serialisation. The document is the repository's `jobs` field, and a failing read or write is a flag. A write that fails halfway is not modelled.
- Concurrent requests racing on the jobs document or on the shared code store. The model is sequential.
- The Resend mail client and the HTML of the message. Only the recipient, the code handed over and whether the send reported an error are modelled.
- Floating-point rounding in `Math.floor(100000 + Math.random() * 900000)`. It is computed on exact reals.
- Unicode case mapping. `toLowerCase`/`toUpperCase` are modelled on ASCII letters only.
- `new Date(...).toISOString()` formatting. Dates appear as the instant they format.
- JSON body fields that are not strings (for instance a numeric email, on which `endsWith` throws and the handler answers 500). Body fields are missing or strings.
- AdminJobsRoute.Post: the content fields other than `title` are taken as present; a body missing them would store a posting without them.
- The static JSON-LD objects (`getOrganizationSchema`, `getWebSiteSchema`, `getContactPageSchema`), the field copy `getServiceSchema`, and the constant members of the modelled objects (`@type` tags, hiring organisation, salary).
- Logging through `console.error`.
- AdminJobByIdRoute.Patch: uses the corrected update of the finding below, not the as-written one.

## Findings

| source | as written | input that shows it | evidently intended | confidence | as-written member | corrected member |
|---|---|---|---|---|---|---|
| app/api/admin/jobs/[id]/route.ts:18-21 | the PATCH handler always adds a `slug` key to the update. When the body has no truthy title the key holds `undefined`, and the spread in `updateJob` writes it over the stored slug, so the rewritten JSON has no slug and no slug lookup can find the posting | PATCH body `{"location": "Pune"}` on any stored posting | recompute the slug when a title is given, otherwise keep the stored one | not executed | `AdminJobByIdRoute.PatchWithoutTitleErasesSlug` | `AdminJobByIdRoute.PatchKeepsSlugInStep` |
