# Hall booking front end: a verified model of its rules

The hall-booking front end is a React application. Customers book the hall
with it, and the hall's administrators use it to manage bookings and
packages. Most of the application is layout and HTTP plumbing. This project
models the parts that decide something, as Dafny datatypes, functions,
classes and lemmas:

- **Booking page** (`booking.dfy`, module `Booking`):
  - the field rules (name, e-mail, ten-digit phone, package, guests ≥ 1,
    date, time);
  - the phone and guests sanitisers;
  - the booked-day list and the date picker's "disabled" test;
  - the two-stage submit: validate, check the cached booked days, open the
    preview; then, on confirm, re-fetch, check again, POST, and reset or
    report.
- **Admin dashboard** (`admin_dashboard.dfy`, module `AdminDashboard`):
  - the fetch that drops past bookings and the page-count fallback;
  - the stable "name starts with the search term first" ordering;
  - the live payment and deletion updates;
  - approval with an amount capped at ₹1 000 000, and rejection;
  - the card's button and chip rules.
- **Package editor** (`package_management.dfy`, module `PackageManagement`):
  - the new-package defaults and the create-or-update choice;
  - the safe copy with missing lists made empty;
  - the list dialog's buffer, edited item by item;
  - the save payload: the menu section, or the top-level field.
- **Package cards** (`packages.dfy`, module `Packages`):
  - the expanded-cards toggle;
  - the first three included items and the "+N more" / "Show Less" button;
  - the stock-picture fallback;
  - the menu highlight chips;
  - the pricing line.
- **Route guard** (`protected_route.dfy`, module `ProtectedRoute`): redirect
  without a token, or with a malformed or expired one, forgetting the bad
  token. Otherwise render the page.

Shared modules:

- `wrappers.dfy` (`Wrappers`): `Option`, and `Reply`, the outcome of a
  request. A request either returns data or fails with an optional HTTP
  status and the error body's `message` and `description`.
- `calendar.dfy` (`Calendar`): days and times of day as integer triples and
  pairs.
- `js_text.dfy` (`JsText`): the JavaScript string built-ins the rules use:
  the `\s` and `\d` classes, `trim`, `toLowerCase`, `startsWith`,
  `includes`, `slice`, `join`, and `Number` on digit strings, which gives
  Infinity once the value reaches 2^1024 - 2^970, half a unit above the
  largest double.
- `lists.dfy` (`Lists`): `filter`, and a stable sort by a two-valued key.
- `catalog.dfy` (`Catalog`): the package record.
- `feedback.dfy` (`Feedback`): the snackbar/toast state.

### How the environment is modelled

- Every request is a parameter of type `Reply<T>`. A conflict is a failure
  with status 409.
- A dayjs value is a `Stamp`: a day and time of day, or an invalid instant.
  Formatting one as `YYYY-MM-DD` gives a `DayKey`. An invalid instant
  formats as the text "Invalid Date", which is modelled as `InvalidDay`.
- `Date.now()` is a parameter in milliseconds, and today's date is a
  parameter of type `Date`.
- The output of the JWT decoder is a parameter: the `exp` claim, or a
  decoding failure.
- The browser's storage is reduced to the `token` entry.
- The `Number()` of the approval amount is a parameter of type
  `Option<int>`, with `None` for NaN.

### Where the code and its description differ

- The package rule only tests that a package name is present. It does not
  test that the name is one of the fetched packages.
- A date picker that is cleared stores `dayjs(null)`. That is an invalid
  but truthy object, so `validateForm` accepts it
  (`Booking.ClearedDatePasses`).
- After a successful POST whose response lists booked days, `bookedDates`
  becomes that list. The new day is disabled only if the server's list
  contains it, so `Booking.BookingPage.HandleConfirmBooking` states that
  property only for the merge path.

## Model

| member | source | states |
|---|---|---|
| Booking.NormalizeDate | src/Components/Booking.jsx:60-63 | a missing value gives null; any other value gives its day key |
| Booking.NormalizeDateSameDay | src/Components/Booking.jsx:60-63 | two instants normalise to the same key exactly when they fall on the same day, whatever their times |
| Booking.NormalizeAll | src/Components/Booking.jsx:72-73 | each present date's day is in the result, and every entry of the result is the day of some present date |
| Booking.DisableBookedDates | src/Components/Booking.jsx:161-164 | a day is disabled exactly when some entry of the booked list (the set of line 65) is that day; a missing date is never disabled |
| Booking.BookedFromBody | src/Components/Booking.jsx:72-73 | a missing list (`data.bookedDates \|\| []`) gives no booked days |
| Booking.BookedDaysOfBody | src/Components/Booking.jsx:72-73 | the booked days of a present list are exactly the days of its present dates; null entries are dropped |
| Booking.BookedSet | src/Components/Booking.jsx:65 | the set holds exactly the entries of the booked list |
| Booking.IndexOf | src/Components/Booking.jsx:98 | the first position of a character, or -1 when it does not occur |
| Booking.IsValidEmail | src/Components/Booking.jsx:98 | an accepted address has at least five characters and an '@' (its exact shape is stated by Booking.EmailAccepted) |
| Booking.EmailAccepted | src/Components/Booking.jsx:98 | an address is accepted exactly when it splits as L@D.T, with L, D and T non-empty and free of white space and '@' |
| Booking.AcceptedHasShape | src/Components/Booking.jsx:98 | every accepted address has the L@D.T form |
| Booking.ShapeIsAccepted | src/Components/Booking.jsx:98 | every address of the L@D.T form is accepted |
| Booking.IsValidPhone | src/Components/Booking.jsx:99 | a phone passes exactly when it has ten characters and removing the non-digits leaves it unchanged |
| JsText.ToNumber | src/Components/Booking.jsx:101 | NaN exactly for text that is not a numeral; Infinity exactly for a numeral worth 2^1024 - 2^970 or more; otherwise the numeral's own decimal value, which lies in [0, 2^1024 - 2^970) |
| Booking.GuestsRule | src/Components/Booking.jsx:100-103 | the guests text passes exactly when it is a numeral worth at least 1 and below 2^1024 - 2^970, since neither NaN nor Infinity is an integer |
| Booking.FieldNamed | src/Components/Booking.jsx:105-123 | a name denotes the input with that key, or no input at all |
| Booking.ValidateField | src/Components/Booking.jsx:105-124 | for each input, the error is empty exactly when its rule holds (non-blank name, valid e-mail, ten digits, guests ≥ 1, package/date/time truthy); special requests never fail |
| Booking.ValidateNamed | src/Components/Booking.jsx:105-124 | an unknown name gives the empty error; a known one gives its input's verdict |
| Booking.NameRule | src/Components/Booking.jsx:108 | the name passes exactly when it has a character outside the white-space class |
| Booking.SanitizePhone | src/Components/Booking.jsx:143-147 | the stored phone is digits only, of length min(10, k), and is the first of the input's k digits in order |
| Booking.SanitizedPhoneValid | src/Components/Booking.jsx:143-147 | the sanitised phone passes the ten-digit rule of line 99 exactly when the input held at least ten digits |
| Booking.SanitizePhoneIdempotent | src/Components/Booking.jsx:143-147 | sanitising twice is sanitising once |
| Booking.SanitizeGuests | src/Components/Booking.jsx:150-154 | the stored guests value is the digits of the input, in order, with every other character removed |
| Booking.SanitizedGuestsValid | src/Components/Booking.jsx:150-154 | the sanitised value passes the rule of lines 100-103 exactly when the input has a digit other than '0' and its digits, read as a numeral, stay below 2^1024 - 2^970, from where `Number` gives Infinity |
| Booking.GuestsExamples | src/Components/Booking.jsx:100-103 | "" and "0" are rejected, "12" is accepted, and "1a2" is stored as "12" |
| Booking.PhoneExample | src/Components/Booking.jsx:144 | "12345abc678" is stored as "12345678", which is not a valid phone |
| Booking.EmptyErrors | src/Components/Booking.jsx:43-51 | the initial error record has exactly the seven checked inputs, each with "" |
| Booking.WithText | src/Components/Booking.jsx:143-158 | the changed input takes the new text and every other input is kept |
| Booking.FormValidRules | src/Components/Booking.jsx:126-138 | a form passes exactly when its name is not blank, its e-mail and phone are valid, a package is chosen and the guests are ≥ 1 |
| Booking.ValidImpliesRules | src/Components/Booking.jsx:126-138 | a passing form meets each of those rules |
| Booking.RulesImplyValid | src/Components/Booking.jsx:126-138 | a form meeting those rules passes |
| Booking.ClearedDatePasses | src/Components/Booking.jsx:378-381 | a cleared picker fails the rule of line 118 on its raw null, but the invalid dayjs it stores passes the form check |
| Booking.CollectErrors | src/Components/Booking.jsx:126-135 | the loop's error record is the verdict of each of the seven inputs, and the flag is true exactly when all are empty |
| Booking.Dedup | src/Components/Booking.jsx:260 | the result has the same members as the input and no repeats |
| Booking.DedupNoDup | src/Components/Booking.jsx:260 | a list without repeats is unchanged |
| Booking.MergeDay | src/Components/Booking.jsx:260 | merging a day into the booked list appends it only when it is new |
| Booking.PayloadCarriesDay | src/Components/Booking.jsx:205-209 | the payload's date is the normalised day of the form's date, so the check of line 218 refuses exactly the days the picker disables |
| Booking.BookingPage.constructor | src/Components/Booking.jsx:32-58 | the empty form at the current instant, the empty errors, a closed preview and no booked days |
| Booking.BookingPage.SelectedIsBooked | src/Components/Booking.jsx:278-281 | the selected day counts as booked exactly when the date picker would disable it |
| Booking.BookingPage.ConfirmEnabled | src/Components/Booking.jsx:458 | Confirm is enabled exactly when nothing is being submitted and the picker would not disable the selected day |
| Booking.BookingPage.ConfirmLabel | src/Components/Booking.jsx:460 | "Confirm Booking" exactly when Confirm is enabled, "Date Unavailable" exactly when not submitting and the day is booked, "Submitting..." exactly while submitting |
| Booking.BookingPage.LoadBookedDates | src/Components/Booking.jsx:68-83 | the booked list becomes the normalised, present days of the reply, or empty on failure; loading ends; nothing else changes |
| Booking.BookingPage.LoadPackages | src/Components/Booking.jsx:86-96 | the package list becomes the reply's list (or empty when the body is missing); a failure keeps the old list |
| Booking.BookingPage.HandleChange | src/Components/Booking.jsx:140-159 | the input takes its sanitised text and only its error is recomputed; only this field's entry is set |
| Booking.BookingPage.ChangeDate | src/Components/Booking.jsx:378-381 | the form holds the picked instant (an invalid one when cleared), and the date error is the verdict on the raw value |
| Booking.BookingPage.ChangeTime | src/Components/Booking.jsx:392-395 | the same for the time picker |
| Booking.BookingPage.ValidateForm | src/Components/Booking.jsx:126-138 | the seven checked errors are overwritten, every other key is kept, and the result is the form's verdict |
| Booking.BookingPage.HandleSubmit | src/Components/Booking.jsx:180-201 | the preview opens exactly when the form is valid and its day is not booked; a taken day sets the date error; no request is made; a preview this submit opens has a valid form and a selected day that is not booked |
| Booking.BookingPage.RefuseTakenDay | src/Components/Booking.jsx:218-226 | a day the refreshed list holds gets the date error and the taken-day notice, submitting ends, and Confirm then reads "Date Unavailable" and stays disabled |
| Booking.BookingPage.HandleConfirmBooking | src/Components/Booking.jsx:203-276 | a refreshed list containing the day blocks the POST and replaces the booked list; a failed refresh still POSTs; success resets the form and errors and merges or replaces the booked list (and in the merge case the day is disabled); 409 sets the date error; other failures only notify; submitting ends false on every path; a blocked confirmation leaves the selected day booked and Confirm disabled |
| Booking.BookingPage.RecordOutcome | src/Components/Booking.jsx:232-272 | after the POST: success resets the form and errors, closes the preview and takes the returned booked list or merges the day (which is then in the list); 409 sets the date error; other failures only notify |
| AdminDashboard.PageCount | src/Components/AdminDashboard.jsx:131 | 1 for a bare array or a missing or zero totalPages, else totalPages |
| AdminDashboard.FetchedList | src/Components/AdminDashboard.jsx:130 | a bare array is the list itself; a page gives its bookings, or none when they are missing |
| AdminDashboard.Upcoming | src/Components/AdminDashboard.jsx:133-140 | every kept booking falls on today or later, and a booking is kept exactly when it is in the list and upcoming |
| AdminDashboard.UpcomingAppend | src/Components/AdminDashboard.jsx:136-140 | the filter keeps the order: filtering a concatenation is concatenating the filtered parts |
| AdminDashboard.UpcomingKeepsFuture | src/Components/AdminDashboard.jsx:136-140 | a list with nothing in the past is kept whole |
| Lists.StableSortIsPartition | src/Components/AdminDashboard.jsx:154-158 | the stable sort by the comparator `bMatch - aMatch` gives the passing elements followed by the failing ones, each in original order |
| AdminDashboard.SortedBookings | src/Components/AdminDashboard.jsx:154-158 | the ordering is the matching bookings followed by the others, each group in its original order |
| AdminDashboard.SortedIsPermutation | src/Components/AdminDashboard.jsx:154-158 | the ordering is a permutation of the bookings |
| AdminDashboard.SortedMatchesFirst | src/Components/AdminDashboard.jsx:154-158 | every booking whose lower-cased name starts with the lower-cased term precedes every one whose name does not |
| AdminDashboard.SortedEmptyTerm | src/Components/AdminDashboard.jsx:154-158 | with an empty search term the order is unchanged |
| AdminDashboard.Dashboard.Shown | src/Components/AdminDashboard.jsx:154-158 | the cards shown are a permutation of the bookings, with matching names first, and in fetched order for an empty term |
| AdminDashboard.ApplyPayment | src/Components/AdminDashboard.jsx:100-103 | the length and order are kept, only isPaid changes, and only on records whose _id is the event's id |
| AdminDashboard.RemoveDeleted | src/Components/AdminDashboard.jsx:114-116 | a record survives exactly when it was there and its _id is not the deleted id |
| AdminDashboard.RemoveRejected | src/Components/AdminDashboard.jsx:220 | a record survives exactly when it was there and neither its _id nor its id is the rejected id |
| AdminDashboard.RemovalsKeepOrder | src/Components/AdminDashboard.jsx:114-116 | both removals (and the rejection filter of line 220) keep the survivors' order |
| AdminDashboard.UpdatesKeepUpcoming | src/Components/AdminDashboard.jsx:100-116 | payment updates, deletions and the rejection filter (line 220) never bring back a booking from the past |
| AdminDashboard.CardId | src/Components/AdminDashboard.jsx:456 | a card's buttons pass its _id when that is truthy, otherwise its id |
| AdminDashboard.RejectRemovesCard | src/Components/AdminDashboard.jsx:454-457 | rejecting through a card's button (`b._id \|\| b.id`) removes that card's booking under the filter of line 220 |
| AdminDashboard.CheckAmount | src/Components/AdminDashboard.jsx:166-180 | an amount passes exactly when it is non-empty, numeric and in (0, MAX_AMOUNT = 1 000 000] (line 64); above the cap it is refused with its own message |
| AdminDashboard.ShowApprove | src/Components/AdminDashboard.jsx:443 | Approve shows exactly when the status is not "approved" |
| AdminDashboard.ShowReject | src/Components/AdminDashboard.jsx:454 | Reject shows exactly when the paid chip is in the error colour, that is, when the booking is unpaid |
| AdminDashboard.StatusLabel | src/Components/AdminDashboard.jsx:426 | the chip shows the status when it is a non-empty text, and "pending" when it is missing or empty |
| AdminDashboard.StatusColor | src/Components/AdminDashboard.jsx:427-433 | success exactly for "approved", error exactly for "rejected", warning otherwise |
| AdminDashboard.PaidColor | src/Components/AdminDashboard.jsx:436-439 | success exactly when paid, else error |
| AdminDashboard.PaymentDecidesReject | src/Components/AdminDashboard.jsx:100-103 | after a payment update for a card, Reject (line 454) shows exactly when the update says unpaid |
| AdminDashboard.ApproveErrorMessage | src/Components/AdminDashboard.jsx:202-205 | never empty: the gateway-limit text when the description mentions "maximum amount", else the server's non-empty message, else "Error approving booking" |
| AdminDashboard.Dashboard.constructor | src/Components/AdminDashboard.jsx:65-78 | the initial state: no bookings, empty term, page 1 of 1, closed dialog |
| AdminDashboard.Dashboard.FetchBookings | src/Components/AdminDashboard.jsx:123-148 | the request carries the page, the limit 6 and the term; on success the list is the upcoming part of the reply in order and the page count follows the fallback; a failure keeps both; loading ends |
| AdminDashboard.Dashboard.SetSearchTerm | src/Components/AdminDashboard.jsx:373-376 | a new term resets the page to 1 |
| AdminDashboard.Dashboard.SetPage | src/Components/AdminDashboard.jsx:478 | the page becomes the chosen one |
| AdminDashboard.Dashboard.OnPaymentUpdate | src/Components/AdminDashboard.jsx:100-112 | the list is updated as ApplyPayment says, and a paid update notifies with the name or "a booking" |
| AdminDashboard.Dashboard.OnBookingDeleted | src/Components/AdminDashboard.jsx:114-116 | the list loses the deleted records |
| AdminDashboard.Dashboard.OpenAmountDialog | src/Components/AdminDashboard.jsx:160-164 | the dialog opens for that id with an empty amount |
| AdminDashboard.Dashboard.ConfirmApprove | src/Components/AdminDashboard.jsx:166-209 | a refused amount sends nothing and keeps the list, the page count and the loading flag; only amounts in (0, 1 000 000] are sent; success closes the dialog and notifies, and the list and page count follow the refetch, or are kept when the refetch fails (line 145), with loading off; a failed POST keeps the list and page count and shows the gateway-limit text or the server's message |
| AdminDashboard.Dashboard.Reject | src/Components/AdminDashboard.jsx:211-226 | success removes the records with that _id or id and notifies; failure keeps the list and shows the server's message or the default |
| Catalog.Lookup | src/Components/PackageManagement.jsx:118-120 | a section is found exactly when the menu has that category, and what is found is that section's dishes |
| Catalog.LookupFinds | src/Components/PackageManagement.jsx:125-127 | in a menu with distinct keys, looking up a section's key finds that section |
| PackageManagement.NewPackage | src/Components/PackageManagement.jsx:61-75 | a new package has no id, fixed pricing, empty lists and the three empty menu sections |
| PackageManagement.SafePackage | src/Components/PackageManagement.jsx:112-122 | missing included, excluded and terms lists become empty, the menu has exactly the three known sections (each the old one or empty), and nothing else changes |
| PackageManagement.SafePackageIdempotent | src/Components/PackageManagement.jsx:112-122 | the safe copy of a safe copy is the same copy |
| PackageManagement.SafeCopyShowsOriginal | src/Components/PackageManagement.jsx:112-133 | the list a dialog shows is the package's own list, or empty when it has none |
| PackageManagement.ListTitle | src/Components/PackageManagement.jsx:130 | "included" gives "Includes", "excluded" gives "Excludes", anything else "Terms" |
| PackageManagement.PricingTypeLabel | src/Components/PackageManagement.jsx:200-204 | "fixed" gives "Fixed", "perPerson" gives "Per Person", anything else "Custom" |
| PackageManagement.SpliceOne | src/Components/PackageManagement.jsx:148-152 | an index in range removes exactly that item; a negative index counts from the end; an index at or past the end removes nothing |
| PackageManagement.SpliceKeepsOthers | src/Components/PackageManagement.jsx:148-152 | after deleting item i, the items before i keep their places and the others move up by one |
| PackageManagement.TitleMatchesSave | src/Components/PackageManagement.jsx:84-90 | the dialog title of line 259 says "Edit Package" exactly when saving updates rather than creates |
| PackageManagement.PackageDialogTitle | src/Components/PackageManagement.jsx:259 | "Edit Package" exactly when a package with a truthy _id is edited, otherwise "Add Package" |
| PackageManagement.Editor.constructor | src/Components/PackageManagement.jsx:32-41 | the initial editor state: nothing open, nothing edited |
| PackageManagement.Editor.FetchPackages | src/Components/PackageManagement.jsx:46-53 | the list becomes the reply's, or is kept on failure |
| PackageManagement.Editor.OpenPackageDialog | src/Components/PackageManagement.jsx:60-77 | the dialog edits the given package, or the new-package defaults |
| PackageManagement.Editor.SavePackage | src/Components/PackageManagement.jsx:82-97 | a package with a truthy _id is sent as an update, any other as a creation; success closes the dialog, notifies and refetches; failure keeps the dialog and notifies |
| PackageManagement.Editor.OpenArrayDialog | src/Components/PackageManagement.jsx:111-138 | the editor holds the safe copy, the buffer is the chosen list (or menu section), the title and menu field follow the field, and view mode is on |
| PackageManagement.Editor.ArrayChange | src/Components/PackageManagement.jsx:140-144 | the length is kept, item i becomes the value and every other item is kept |
| PackageManagement.Editor.AddArrayItem | src/Components/PackageManagement.jsx:146 | exactly one "" is appended |
| PackageManagement.Editor.DeleteArrayItem | src/Components/PackageManagement.jsx:148-152 | the buffer loses the item `splice(index, 1)` removes |
| PackageManagement.Editor.StartEditing | src/Components/PackageManagement.jsx:369 | edit mode turns on |
| PackageManagement.Editor.CancelEditing | src/Components/PackageManagement.jsx:375 | edit mode turns off and the buffer keeps its edits |
| PackageManagement.Editor.Payload | src/Components/PackageManagement.jsx:156-161 | the menu section and the buffer for the menu, else the field and the buffer |
| PackageManagement.Editor.SaveArrayDialog | src/Components/PackageManagement.jsx:154-171 | the payload goes to the edited package's id; success closes the dialog, notifies with the title and refetches; failure notifies with the title |
| Packages.ToggleExpand | src/Components/Packages.jsx:44-48 | the toggled id's membership flips and every other id's is unchanged |
| Packages.ToggleKeepsDistinct | src/Components/Packages.jsx:44-48 | toggling never lists an id twice |
| Packages.ToggleTwice | src/Components/Packages.jsx:44-48 | toggling twice restores every membership, and restores the list itself when the card was collapsed |
| Packages.VisibleIncluded | src/Components/Packages.jsx:208-211 | a collapsed card lists the first min(3, n) items and an expanded one all n |
| Packages.IncludedButton | src/Components/Packages.jsx:216-225 | a button shows exactly when n > 3; it reads "Show Less" when expanded, else "+(n - 3) more" |
| Packages.NothingLost | src/Components/Packages.jsx:208-225 | the listed items plus the hidden count are all the items |
| Packages.BackgroundImage | src/Components/Packages.jsx:122-128 | the first image when it is present and non-empty, else the stock picture at the card's index modulo 3 |
| Packages.StockCycles | src/Components/Packages.jsx:127-128 | cards three places apart without pictures share a stock picture |
| Packages.MenuChips | src/Components/Packages.jsx:232-256 | no chips without a menu; otherwise one chip for each of the first min(3, k) sections, each with at most its first 2 dishes |
| Packages.ChipLabel | src/Components/Packages.jsx:247-249 | a chip's text starts with its category and ": ", ends with "...", and contains every dish it shows |
| Packages.PricingLabel | src/Components/Packages.jsx:176-180 | fixed pricing shows the rupee price, "perPerson" shows "Per Person Pricing", anything else "Custom Pricing" |
| ProtectedRoute.Decide | src/Components/ProtectedRoute.jsx:6-27 | the page renders exactly when a truthy token decodes and its exp is absent or not before now |
| ProtectedRoute.Expired | src/Components/ProtectedRoute.jsx:14-16 | a token with an exp claim has expired exactly when exp is before the current whole second, or equal to it once part of that second has passed; one without exp never expires |
| ProtectedRoute.StoredAfter | src/Components/ProtectedRoute.jsx:8-25 | without a token storage is unchanged; a malformed or expired token is removed; a rendering token is kept |
| ProtectedRoute.RedirectSticks | src/Components/ProtectedRoute.jsx:8-25 | after a redirect, the next visit redirects too |
| ProtectedRoute.TokenStore.Guard | src/Components/ProtectedRoute.jsx:5-28 | the outcome and the stored token are those of Decide and StoredAfter |
| JsText.Digits | src/Components/Booking.jsx:144 | `replace(/\D/g, "")` keeps only digits and never lengthens (also line 151) |
| JsText.DigitsNonZero | src/Components/Booking.jsx:151 | dropping the non-digits keeps a non-zero digit exactly when the input had one |
| JsText.TrimEmpty | src/Components/Booking.jsx:108 | a trimmed text is empty exactly when every character is white space |
| JsText.DecimalValuePositive | src/Components/Booking.jsx:100-103 | a digit string is worth at least 1 exactly when it has a digit other than '0' |
| Wrappers.OrElse | src/Components/AdminDashboard.jsx:224 | `s \|\| default`, as in the messages of lines 106, 205 and 224: the value when present and non-empty, else the default |

## Left out

- Layout, styling, animations, the snackbar's auto-hide, and navigation. These are display only.
- The socket connection's lifecycle, and the HighlightedText component. The latter builds a regular expression from raw input, so its behaviour belongs to the regex engine.
- The administrator-account dialog and logout in the dashboard. They are request plumbing with no rule of their own.
- handleDeletePackage and the package editor's text inputs. They are plain requests and record updates.
- Console warnings and errors logged on failed requests are not modelled; no rule depends on them.
- Packages.PricingLabel: the price is shown as its stored text, so the label loses the locale digit grouping of `toLocaleString` ("150000" where the page shows "150,000"), and the throw on a missing price is not modelled.
- dayjs parsing and formatting, toLocaleString, toLocaleDateString and toLocaleTimeString. Days are integer triples, and the amount in the approval toast is kept as a number.
- Number(): parsing is modelled only for digit strings. The guests input only ever holds those. The approval amount arrives already parsed, as an optional integer, so fractional amounts are not modelled.
- JsText.ToNumber: a finite result is the numeral's exact value, while JavaScript rounds a value above 2^53 to the nearest double. Every double that large is an integer, so the guest rule's verdict is the same.
- PackageManagement.Editor.SavePackage: the refetch `fetchPackages()` at src/Components/PackageManagement.jsx:92 is started but not awaited; the model applies its outcome within the same call, so a save racing with another fetch is not modelled.
- PackageManagement.Editor.SaveArrayDialog: the refetch `fetchPackages()` at src/Components/PackageManagement.jsx:166 is likewise not awaited; the model applies its outcome within the same call.
- toLowerCase and the `\s` class cover ASCII letters and the ECMAScript white-space characters. Unicode case mapping is not modelled.
- AdminDashboard.SortedBookings: a booking without a name makes the JavaScript comparator return NaN. The model gives every booking a name.
- AdminDashboard.Dashboard.FetchBookings: a successful reply with a null body makes `res.data.bookings` throw at line 130 of AdminDashboard.jsx, and the catch keeps the list and the page count. `BookingsBody` has no null body, so that reply is represented only by its outcome, which is the one of a failed reply.
- AdminDashboard.Dashboard.ConfirmApprove: the list is refetched as soon as the approval succeeds. In the source that refetch is not awaited and finishes after the success toast.
- Booking.BookingPage.HandleConfirmBooking: the day is shown disabled only in the merge path. When the server returns a non-empty list, that list replaces the booked days and need not contain the new day.
- PackageManagement.Editor.ArrayChange: only indices inside the buffer are modelled. The text fields exist only for those, while a JavaScript array would grow for a larger index.
- PackageManagement.Editor.OpenArrayDialog: the field is one of the four list fields, and a menu section is one of the three known keys. With another key the source reads a missing section and throws.
- The concurrency between two customers booking the same day. Only the sequential order (refresh, then POST) is modelled.
- Packages.MenuChips: each chip shows its own section's dishes. That matches the source's `menu[category]` lookup because an object's keys are distinct.
