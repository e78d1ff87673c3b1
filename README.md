# Image generator front end — a Dafny model of its state rules

The application lets a user type a prompt, choose an orientation and a
resolution tier (HD, 2K, 4K), pay for the image in credits, and browse the
generated images in a searchable, paginated library. Beneath the views there
are three small sets of rules, and this project models each of them in its
own module:

- `App` (App.tsx) covers the shell's state: the user with a credit balance,
  the image catalog (newest first), the busy flag, the error message and the
  current view. The class `App.AppState` holds these fields. Its method
  `HandleGenerateImage` is the generation request. It can be refused for lack
  of credits, it can succeed (the image is prepended and exactly the tier's
  cost is debited), or it can fail (nothing changes but the message). The
  busy flag is lowered after every request that is not refused.
  `HandleBuyCredits` adds a package's credits and returns to the generator.
  `RenderView` chooses the screen and falls back to the generator.
  The invariant `Valid()` says the balance is never negative. The constructor
  sets up 25 credits and every handler keeps `Valid()`.
- `Generator` (components/Generator.tsx) covers the form. It has its own cost
  table (proved equal to the shell's), the `canGenerate` gate, and a submit
  guard on the trimmed prompt. The guard is stated against an independent
  "has a visible character" predicate. The module also covers the disabled
  state of the submit button (proved to coincide with "submitting does
  nothing") and the cost label.
- `Library` (components/Library.tsx) covers the catalog screen. It has a
  substring search (proved equal to "occurs at some position") and a
  case-folded filter (proved complete, sound, order-preserving, idempotent
  and the identity for an empty term). It has the page count as a ceiling
  division and the page window as JavaScript's `slice`. The pages are proved
  to partition the filtered list. The class `Library.LibraryState` holds the
  search term, the current page and the catalog it is given. Its handlers keep
  the page in range, including when the shell prepends a new image while the
  screen is shown (`ReceiveNewImage`).

The types of types.ts are datatypes in `Types`. The external image service is
not modelled. Its answer is the `outcome` parameter of the request
(`Ok(url)` or `Fail`), and the request returns the one call it makes to the
service (`ApiRequest`), or `None` when it makes none. The fresh image id and
the time stamp are parameters too. The method `App.SessionScenario` walks
through a whole session: five 4K images spend the 25 credits, the sixth
request is refused, a purchase of 250 follows, then a failed request. Its
results are the final balance (250), the final image count (5) and whether
the sixth request was refused.

## Model

| member | source | states |
|---|---|---|
| Types.SizeName | types.ts:3 | each size's literal is the two-character text "HD", "2K" or "4K" |
| Types.SizeNameInjective | types.ts:3 | two sizes have the same literal only if they are the same size |
| App.CostTable | App.tsx:35-42 | the shell's cost table is HD 1, 2K 3, 4K 5, and every cost is positive |
| App.CostsAgree | components/Generator.tsx:20-22 | the form's cost table agrees with the shell's for every size |
| App.SubmissionIsAffordable | App.tsx:46 | whatever the form's guard lets through has a covered cost and no request in flight, so the shell's insufficient-credits branch cannot be taken |
| App.FullPromptDeterminesInput | App.tsx:54 | the composed service prompt (prompt, ", ", size, " resolution, high detail") determines both the user's prompt and the size |
| App.NewImageLeadsLibrary | App.tsx:67 | an image just put in front of the catalog that matches the search comes first in the filtered list and heads library page 1 |
| App.RenderViewDefault | App.tsx:86-97 | the library and pricing views render their screens; the generator view and every other view render the generator |
| App.AppState.constructor | App.tsx:12-21 | a session starts on the generator view with user "1" holding 25 credits, no images, not busy and no error |
| App.AppState.HandleGenerateImage | App.tsx:44-76 | a refused request only sets "Not enough credits to generate image." and makes no service call; otherwise one call with the composed prompt is made and the busy flag ends false; on success the echoed image is prepended and becomes the last image shown beside the form (App.tsx:89), exactly the cost is debited and the error is clear; on failure catalog and user are unchanged and the error is "Failed to generate image. Please try again."; the balance stays non-negative |
| App.AppState.HandleBuyCredits | App.tsx:78-84 | the balance grows by exactly the package's credits, the view becomes the generator, nothing else changes |
| App.AppState.Navigate | App.tsx:104 | navigation sets the view and changes nothing else |
| App.AppState.SubmitForm | App.tsx:89 | the form wired to the shell's balance and busy flag: no submission changes nothing at all; a submission always reaches the service, is never refused for lack of credits and ends with the busy flag false and the view kept; on success the form's prompt, orientation and size are echoed in the prepended image and exactly the cost is debited; on failure catalog and user are unchanged and the failure message is set |
| App.SessionScenario | App.tsx:44-84 | the results of a whole session on the handlers: from the initial 25 credits the balance after five 4K images is 0, the sixth request is refused with five images kept, the balance after a purchase of 250 is exactly 250, and after a failed request the balance is still 250 and the catalog holds five images |
| Generator.CanGenerate | components/Generator.tsx:24-25 | the gate is open exactly when nothing is in flight and the balance is at least 1, 3 or 5 for HD, 2K or 4K; an open gate always means a positive balance |
| Generator.CanGenerateMonotone | components/Generator.tsx:25 | a larger balance never closes an open gate |
| Generator.CostTable | components/Generator.tsx:20-22 | the form's cost table is HD 1, 2K 3, 4K 5 |
| Generator.TrimStartSpec | components/Generator.tsx:29 | trimming the start drops a leading run of white space and keeps the rest of the text |
| Generator.TrimStartFirstVisible | components/Generator.tsx:29 | what remains after trimming the start does not begin with white space |
| Generator.TrimStartEmptyIff | components/Generator.tsx:29 | trimming the start leaves nothing exactly when the text is white space only |
| Generator.TrimEndSpec | components/Generator.tsx:29 | trimming the end drops a trailing run of white space and keeps the rest of the text |
| Generator.TrimEndLastVisible | components/Generator.tsx:29 | what remains after trimming the end does not end with white space |
| Generator.TrimEndEmptyIff | components/Generator.tsx:29 | trimming the end leaves nothing exactly when the text is white space only |
| Generator.TrimEmptyIff | components/Generator.tsx:29 | the trimmed prompt is empty exactly when every character is white space |
| Generator.HandleSubmit | components/Generator.tsx:27-32 | onGenerate is called exactly when the prompt has a visible character, the balance covers the cost and nothing is in flight, and then with the untrimmed prompt, orientation and size |
| Generator.SubmitDisabledIffNoSubmission | components/Generator.tsx:115 | the submit button is disabled exactly when submitting would call nothing |
| Generator.BlankPromptNeverSubmits | components/Generator.tsx:29 | a prompt of white space only never submits and its button is disabled |
| Generator.InitialFormCannotSubmit | components/Generator.tsx:16-18 | the form starts with an empty prompt, Square and HD, and cannot submit until a prompt is typed |
| Generator.ButtonLabels | components/Generator.tsx:118-127 | the idle button reads "Generate (1 Credit)", "Generate (3 Credits)" or "Generate (5 Credits)", singular exactly for a cost of one, and a busy button reads "Generating..." |
| Generator.SizeCaptionsAgreeWithCosts | components/Generator.tsx:99-106 | the fixed captions of the size buttons state each size's cost from the cost table, with the same singular and plural rule |
| Library.ToLowerIdempotent | components/Library.tsx:20 | lower-casing twice is lower-casing once |
| Library.IncludesIffOccurs | components/Library.tsx:20 | the substring search succeeds exactly when the term occurs at some position of the text |
| Library.IncludesEmpty | components/Library.tsx:20 | the empty term is found in every text |
| Library.MatchesIgnoresCase | components/Library.tsx:20 | whether an image matches does not depend on the case of the term |
| Library.FilterImages | components/Library.tsx:19-22 | the filtered list is no longer than the catalog and holds only catalog images that match |
| Library.FilterKeepsMatches | components/Library.tsx:19-22 | every catalog image that matches is in the filtered list |
| Library.FilterIsSubsequence | components/Library.tsx:19-22 | the filtered list keeps the catalog's order: it is a subsequence of it |
| Library.FilterEmptyTerm | components/Library.tsx:20 | an empty search term keeps the whole catalog |
| Library.FilterAppend | components/Library.tsx:19-22 | filtering a concatenation is the concatenation of the filtered parts |
| Library.FilterIdempotent | components/Library.tsx:19-22 | filtering the filtered list again changes nothing |
| Library.TotalPages | components/Library.tsx:12-24 | the page count is the ceiling of n / 12: the least count of pages of 12 that holds n, and 0 exactly when nothing matches |
| Library.ClampIndex | components/Library.tsx:28-30 | a `slice` argument clamps to the list: a non-negative one is cut at the length, a negative one counts back from the end and stops at 0 |
| Library.Slice | components/Library.tsx:28-30 | `slice` never yields more than the list; with arguments in order and in bounds it is the plain sub-range, with the end at or before the start it is empty, and it only holds elements of the list |
| Library.PageOf | components/Library.tsx:26-30 | a page holds at most 12 images, all from the filtered list, and page 0 is empty |
| Library.NegativePageCountsFromEnd | components/Library.tsx:26-30 | `slice` does not reject a negative page: page -1 of 25 images is the twelve images from position 1 to 12 |
| Library.PageWindow | components/Library.tsx:26-30 | page p (from 1) is the slice from (p-1)*12 to min(p*12, n), empty past the end, never more than 12 images |
| Library.PageSizes | components/Library.tsx:26-30 | pages before the last are full, the last holds n - 12*(pages-1), pages past the last are empty |
| Library.TwentyFiveImages | components/Library.tsx:24-30 | 25 matches give 3 pages of 12, 12 and 1, and pages 0 and 4 are empty |
| Library.NoMatchesNoPages | components/Library.tsx:24-30 | with no matches there are no pages and every page number shows nothing |
| Library.PagesUpToPrefix | components/Library.tsx:26-30 | the first m pages together are the first 12*m matches |
| Library.PagesPartition | components/Library.tsx:24-30 | pages 1 to the page count, read in order, are exactly the filtered list |
| Library.TotalPagesMonotone | components/Library.tsx:24 | a longer filtered list never has fewer pages |
| Library.PageInRangeNonEmpty | components/Library.tsx:26-36 | a page the library can hold is empty only when nothing matches |
| Library.LibraryState.PaginatedImages | components/Library.tsx:26-30 | the rendered grid holds at most 12 images, each a catalog image matching the term |
| Library.ShownPageNeverStale | components/Library.tsx:61-64 | on the screen's state, the rendered page is empty exactly when nothing matches: a page past the results is never shown |
| Library.LibraryState.PreviousDisabled | components/Library.tsx:73 | "Previous" is enabled exactly when the page before the current one is a page the screen can hold |
| Library.LibraryState.NextDisabled | components/Library.tsx:81 | while the controls are shown, "Next" is enabled exactly when the page after the current one is within the page count |
| Library.LibraryState.ShowsPageControls | components/Library.tsx:69 | the page controls appear exactly when more than 12 images match |
| Library.LibraryState.constructor | components/Library.tsx:15-16 | the screen opens with an empty term on page 1, showing the whole catalog |
| Library.LibraryState.HandlePageChange | components/Library.tsx:32-36 | the page changes to p exactly when 1 <= p <= page count and is left alone otherwise; the page stays in range |
| Library.LibraryState.ReceiveNewImage | App.tsx:67 | an image prepended by the shell while the library is shown grows the list at the front, keeps the term and the page, puts the image in front of the matches when it matches, and never lowers the page count, so the page stays in range |
| Library.LibraryState.OnSearchChange | components/Library.tsx:53-56 | a new search term always resets the page to 1 |
| Library.LibraryState.ClickPrevious | components/Library.tsx:71-77 | "Previous" moves one page back except on page 1; it is disabled exactly when clicking it would not move |
| Library.LibraryState.ClickNext | components/Library.tsx:79-85 | "Next" moves one page on except on the last page; while the page controls are shown, it is disabled exactly when clicking it would not move |

## Left out

- The image service (`generateImage` in services/geminiService) is not part of this model. Its call is asynchronous and networked, so it is replaced by the `outcome` parameter and the `ApiRequest` result.
- Each handler runs as one atomic step. The model does not capture the await between raising and lowering the busy flag (App.tsx:55), nor any other action taken during it. In particular it does not capture two requests overlapping, because the handler created by that render keeps the balance it read until the component renders again (App.tsx:76).
- Image ids come from `new Date().toISOString()` and time stamps from `new Date()`. Both are taken as parameters and are not interpreted.
- App.CreditCost: its `default: return 1` branch (App.tsx:40) cannot be reached for the closed size type, so the match has no such case.
- Library.ToLower: only ASCII letters are lower-cased, not the full Unicode case mapping of `toLowerCase`.
- Generator.IsWhiteSpace: the trimmed set is the ECMAScript WhiteSpace and LineTerminator code points. JavaScript strings are treated as sequences of code points rather than UTF-16 units, which makes no difference for these characters, as all of them lie in the Basic Multilingual Plane.
- Library.TotalPages: `Math.ceil` over a floating-point quotient is modelled as exact integer ceiling division. The two agree for every list length a browser can hold.
- The header stays usable while a request is pending, so the library can be open when a new image arrives. `Library.LibraryState.ReceiveNewImage` models that arrival as one step after the request. The page shown then holds the window one image earlier when the new image matches the search. This overlap is stated only through the filtered list, not as a lemma per page.
- Credits, list lengths and page numbers are JavaScript numbers, which are IEEE doubles. The model uses unbounded integers, which agree with them below 2^53. This covers the debit and the purchase (App.tsx:68, App.tsx:82) and `currentPage - 1` and `currentPage + 1` (components/Library.tsx:72, components/Library.tsx:80).
- CreditPackage.credits is a natural number, as for every package offered. A negative package could otherwise break the non-negative balance.
- The theme toggle and its `classList` updates, the `alert` and `console` calls, the modal and its Escape listener, the header, image card and pricing views, and all rendering are I/O or presentation and are not modelled.
- The `Payment` type, the admin view (rendered as the generator) and the "Regenerate" stub have no behaviour.
