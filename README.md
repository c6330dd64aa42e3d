# Home-service marketplace: booking core in Dafny

This project models the sequential logic of a Django home-service
marketplace and proves properties of it. Customers book services, an
administrator approves or rejects bookings, customers pay or cancel, and a
servicer reports the service as completed or rejected. Invoices carry an
18% tax. The model covers:

- the booking lifecycle and the in-memory store that the customer, admin
  and servicer requests change;
- the booking-notes format `Booking for {service} - Provider: {provider}`
  and the several parsers that read it back;
- invoice arithmetic, invoice and transaction numbers, and the gates that
  decide when an invoice is shown, offered or printed;
- the admin's booking search: a candidate set refined by address and notes
  with a three-way outcome;
- the catalogue filters and sort, related services, and the customer's
  booking tabs;
- role routing and the revenue figures of the dashboards;
- the form validators, the admin column helpers, the primary-image rule and
  the e-mail lower-casing migration.

Modules (one `.dfy` file each):

- `Wrappers`: `Option` and `Result`.
- `Strings`: the string operations the source uses, with ASCII case mapping.
- `Seqs`: filters, subsequences and sums.
- `Models`: the booking record and the service's computed properties.
- `Lifecycle`: the status changes and single-booking updates.
- `Matching`: how approve and reject find their booking.
- `Notes`: the notes codec.
- `Invoices`: amounts, numbers and invoice gates.
- `Sorting`: an in-place insertion sort by key.
- `Catalogue`: the service list and detail pages.
- `BookingList`: the customer's booking tabs.
- `BookingStore`: the `Store` class holding bookings and invoices, and its requests.
- `Dashboard`: routing, revenue and the recent-booking names.
- `Forms`: the form validators.
- `AdminDisplay`: the admin column helpers.
- `Images`: the table of service images.
- `EmailMigration`: the `fix_email` data migration.

Conventions:

- Money is a Dafny `real`, standing for Python's `Decimal`. The places that
  use `float` are modelled with the same exact arithmetic.
- Clock readings (`now`), uuid text and dates for invoice numbers are
  parameters. Date-times are `int` seconds.
- A booking id is a string. The store keeps bookings newest first, the
  order both the ORM (`-created_at`) and the MongoDB reads use.
- The Django ORM and the MongoDB copies of a booking are one record in one
  store. Where the two paths of a view behave alike, one method models both.

## Model

| member | source | states |
|---|---|---|
| Models.ParseStatusCode | services/models.py:119-125 | each of the five declared statuses is stored as its code and read back as itself |
| Models.ParseStatus | services/models.py:119-136 | a stored value is read as a status only if it is that status's code |
| Models.StatusDisplay | services/views.py:1251-1259 | the label has the length of the stored value; an undeclared value is shown title-cased |
| Models.ReviewCount | services/models.py:82-84 | the number of reviews; for valid ratings it is zero exactly when the average rating is zero |
| Models.StatusDisplayOfCode | services/views.py:1251-1259 | for every declared status, the label map and the `title()` fallback give the same text |
| Models.NewBooking | services/views.py:1066-1084 | a new booking is pending, unpaid, with payment status pending and no approval, completion or invoice, and satisfies the store invariant |
| Models.AverageRating | services/models.py:76-80 | the mean of the ratings times their count is their sum; no ratings give 0 |
| Models.AverageRatingBounds | services/models.py:76-80 | with ratings in 1..5 (models.py:183), a non-empty mean lies in [1, 5] |
| Models.ProviderName | services/models.py:86-92 | the company name when non-empty, otherwise first and last name with a space; never empty |
| Lifecycle.TerminalHasNoMove | services/models.py:119-125 | rejected, completed and cancelled are exactly the statuses no view moves a booking out of |
| Lifecycle.ReachableTransitive | services/admin_views.py:607-643 | chains of lifecycle moves compose |
| Lifecycle.ReachableShape | homeservice/views.py:565-582 | no sequence of moves leads back to pending, and a terminal status is never left |
| Lifecycle.Approve | services/admin_views.py:607-643 | succeeds iff the booking is pending, else "already processed"; the result is confirmed with the admin's notes, approver and time; an existing provider is kept and only a booking without one gets the available provider; the rejection record and every other field but the update time are unchanged |
| Lifecycle.Reject | services/admin_views.py:850-868 | succeeds iff pending; the result is rejected with the given reason or "No reason provided", notes, rejecter and time; the approval record and every other field but the update time are unchanged |
| Lifecycle.Cancel | services/views.py:1774-1792 | succeeds iff pending or confirmed, else "cannot be cancelled"; the result is cancelled with the reason (default "User requested cancellation") and the time; every other field but the update time is unchanged |
| Lifecycle.FinishService | homeservice/views.py:565-582 | succeeds iff confirmed; the result has the target status, and the completion time and servicer are set when the target is completed and cleared otherwise; the admin and cancellation records and every other field but the update time are unchanged |
| Lifecycle.Pay | services/views.py:2381-2420 | refused without a payment method; otherwise paid, with method, transaction id and time; status and provider unchanged |
| Lifecycle.EditDetails | services/views.py:1713-1722 | the date is replaced only when a new one is given and the instructions only when non-empty; every other field but the update time is unchanged |
| Lifecycle.AttachInvoice | services/admin_views.py:1126-1137 | records the invoice number; every other field but the update time is unchanged |
| Lifecycle.EvolvesTransitive | services/models.py:119-125 | two evolutions of the store compose into one |
| Lifecycle.EvolvesByUpdate | services/admin_views.py:636-643 | replacing one booking by a lifecycle move of it is an evolution of the store |
| Lifecycle.TerminalStaysPut | services/models.py:119-125 | through any evolution, a rejected, completed or cancelled booking keeps its status |
| Matching.FindId | services/invoice_views.py:103-106 | the first position with that id, and none exactly when no booking has it |
| Matching.OwnedAt | services/invoice_views.py:108-111 | a booking is found for a user iff it exists and belongs to that user |
| Matching.Select | services/views.py:1694-1695 | an index is valid iff `0 <= index < len`, and then selects that entry; else "Booking not found" |
| Matching.PendingAt | services/admin_views.py:376-381 | the index-based request is valid iff `0 <= index < len(pending)` and then selects a pending booking |
| Matching.Candidates | services/admin_views.py:435-439 | exactly the pending bookings with that e-mail and exactly that amount |
| Matching.Matches | services/admin_views.py:459-470 | the candidates whose field contains the stripped key, case-insensitively, in order |
| Matching.Narrow | services/admin_views.py:459-470 | narrowing applies only with two or more matches and a non-empty key; it keeps a subsequence, never empties a non-empty set, and, when it changes the set, keeps only matches containing the key |
| Matching.RefineShape | services/admin_views.py:459-470 | refined matches are candidates, no more numerous; the set is empty iff there were no candidates, and a lone candidate is kept |
| Matching.Classify | services/admin_views.py:472-485 | zero matches give not-found, more than one ambiguous, exactly one selects it |
| Matching.Decide | services/admin_views.py:472-485 | not-found iff there is no candidate, ambiguous iff more than one remains after narrowing, success iff exactly one remains |
| Matching.FindForApproval | services/admin_views.py:384-485 | the search as evidently intended: missing e-mail, amount or date, an empty store and no pending booking are refused in that order, and an unparseable amount then gets the "invalid amount" reply; success iff all checks pass and one candidate remains |
| Matching.FindForApprovalAsWritten | services/admin_views.py:424-431 | the search as written: after the same checks an unparseable amount enters the fallback path (services/admin_views.py:488-496); every other input is decided as by `Matching.FindForApproval` |
| Matching.InvalidAmountReplyUnreachable | services/admin_views.py:424-431 | with one pending booking and the amount "abc", the written search falls back while the intended one replies "invalid amount" |
| Matching.ZeroAmountTruthiness | services/admin_views.py:393 | a JSON number zero counts as a missing amount, the text "0.00" and every non-zero number do not |
| Matching.FindForRejection | services/admin_views.py:703-761 | the same search without the store-wide checks; an unparseable amount goes to the fallback path |
| Matching.LoneCandidateSelected | services/admin_views.py:459-485 | a lone candidate is selected by both requests whatever the address and notes |
| Matching.AlikeCandidatesAmbiguous | services/admin_views.py:459-485 | candidates that share address and notes cannot be told apart: two of them always end as ambiguous |
| Matching.NarrowUniform | services/admin_views.py:459-464 | narrowing by a field all matches share changes nothing |
| Notes.ParseBrief | services/views.py:2536-2565 | empty notes and notes without the provider separator give "Home Service" and "Service Provider" |
| Notes.ParsePaymentInfo | services/views.py:2246-2293 | empty notes give the default service details |
| Notes.FindByName | services/views.py:2295-2314 | an entry with exactly that name that no earlier entry shares, so the first one; none when no entry has it |
| Notes.FindByNameTakesFirst | services/views.py:2302-2304 | of two entries with the same name the first is returned |
| Notes.EncodeContainsSeparator | services/views.py:1083 | written notes start with "Booking for " and carry " - Provider: " |
| Notes.MockServiceName | services/views.py:1221-1233 | notes without " - Provider: " give the default service name |
| Notes.InvoiceServiceName | services/invoice_views.py:137-149 | a found service document gives its name; without one, notes lacking "Booking for" give "Unknown Service" |
| Notes.InvoiceProviderName | services/invoice_views.py:151-161 | a found provider document with an e-mail gives a non-empty name; without one, notes lacking "Provider:" give "Unknown Provider" |
| Notes.NameParts | services/invoice_views.py:167-172 | the stand-in provider document has e-mail "Not available" |
| Notes.PdfProviderName | services/invoice_views.py:401-407 | the stripped full name; when empty the e-mail, and without one "Service Provider" |
| Notes.MockServiceNameRoundTrip | services/views.py:1221-1233 | the mock service reads back the service name written at views.py:1083 |
| Notes.ParseBriefRoundTrip | services/views.py:2536-2565 | the payment-result pages read back both names |
| Notes.ParsePaymentInfoRoundTrip | services/views.py:2246-2293 | the payment page reads back the provider, and the service name or the catalogue entry of that name |
| Notes.EncodeContainsBookingMarker | services/views.py:1083 | written notes are non-empty and carry "Booking for" |
| Notes.InvoiceServiceNameRoundTrip | services/invoice_views.py:137-149 | the invoice page reads back a service name that is stripped and free of `-` and the prefixes |
| Notes.InvoiceProviderNameRoundTrip | services/invoice_views.py:151-161 | the invoice page reads back a provider name under the same conditions |
| Notes.NamePartsRoundTrip | services/invoice_views.py:167-172 | a provider name of single-space-separated words survives the split into first and last name and the PDF's re-join |
| Notes.EmptyNotesDefaults | services/invoice_views.py:137-162 | empty notes give every parser its defaults |
| Notes.ThreePartsGiveDefaults | services/views.py:2546-2561 | notes with two provider separators are not read by the payment-result pages |
| Notes.SeparatorFreeIsNotEnough | services/views.py:2546-2561 | a name without the separator can still break the split: "- Provider: x" falls back to the defaults |
| Invoices.Charge | services/views.py:2209-2220 | the amounts are balanced: tax is 18% of the subtotal and the total is subtotal plus tax |
| Invoices.ChargeByMultiplier | homeservice/views.py:438-440 | `subtotal * 1.18` equals subtotal plus tax |
| Invoices.ChargeOrdered | services/invoice_views.py:175-182 | for a non-negative subtotal, 0 <= tax <= total and subtotal <= total |
| Invoices.ChargeAdditive | services/invoice_views.py:175-182 | charges add up: the charge of a sum is the sum of the charges |
| Invoices.ProvisionalNumber | services/invoice_views.py:125 | `INV-` and the first eight characters of the id, upper-cased; the length follows the id |
| Invoices.ProvisionalNumberPrefix | homeservice/views.py:436 | ids that agree on their first eight characters share the provisional number |
| Invoices.GeneratedNumberShape | services/models.py:284-286 | a generated number has 21 characters: `INV-`, eight digits reading back as the date, `-`, eight characters without lower case |
| Invoices.InvoiceRecord.Save | services/models.py:280-287 | a number is generated only when there is none; an existing number is kept |
| Invoices.SaveTwice | services/models.py:280-287 | a second save never replaces the number the first one set |
| Invoices.TransactionId | services/views.py:2394-2395 | `TXN-` and twelve characters without lower case |
| Invoices.OwnedBooking | services/invoice_views.py:103-111 | the booking exists and belongs to the user, or nothing |
| Invoices.InvoiceFor | services/invoice_views.py:119 | the first stored invoice of the booking; none when it has none |
| Invoices.HasInvoice | services/invoice_views.py:473-508 | true only for the owner of a confirmed, paid booking that has a stored invoice |
| Invoices.InvoiceData | services/invoice_views.py:96-196 | data iff the user owns a confirmed booking; balanced amounts recomputed from the booking; the stored number or the provisional one. This MongoDB path is tried first (services/invoice_views.py:44) and serves a confirmed booking whether or not it is paid (services/invoice_views.py:113); only the ORM branch in `BookingStore.Store.OpenInvoice` requires payment |
| Invoices.HasInvoiceShowsSheet | services/invoice_views.py:473-508 | whenever the invoice status check answers yes, the invoice page shows the stored invoice |
| Invoices.PdfGateAsWritten | services/invoice_views.py:264-273 | the PDF path as written: a booking is printed iff the booking with that id belongs to the user, whatever its status and payment, and it is that booking |
| Invoices.PdfGateAsWrittenAdmitsMore | services/invoice_views.py:264-273 | the written gate agrees with the corrected one on confirmed, paid bookings, and every other booking it admits the corrected gate refuses |
| Invoices.UnpaidBookingIsPrinted | services/invoice_views.py:264-273 | a pending, unpaid booking gets a PDF as written but not from the corrected gate |
| Invoices.PdfGate | services/invoice_views.py:242-247 | a PDF only for the owner of a confirmed and paid booking |
| Invoices.PdfGateAgreesWithStatus | services/invoice_views.py:481-490 | the corrected gate admits only bookings the invoice status check offers |
| Invoices.Mul | services/views.py:2689-2693 | a product exists iff both operands are Decimal or both are float |
| Invoices.InvoiceDefaultsAlwaysRaise | services/views.py:2686-2694 | the invoice page's defaults, Decimal times float, raise for every total |
| Invoices.InvoiceDefaults | services/invoice_views.py:59-66 | with Decimal literals the defaults are balanced with the booking's total as subtotal |
| Sorting.SortByKey | services/views.py:79-85 | the array ends sorted by the key, ascending or descending, and is a permutation of what it held |
| Sorting.SortedSubsequence | services/views.py:1371-1375 | leaving elements out of a sorted list keeps it sorted |
| Catalogue.Search | services/views.py:58-59 | exactly the services whose name or description contains the lower-cased query; an empty query keeps all; order kept |
| Catalogue.CategoryChoice | services/views.py:49 | the category parameter, else the slug from the URL |
| Catalogue.InCategory | services/views.py:61-62 | exactly the services of the category; no category keeps all; order kept |
| Catalogue.AtLeast | services/views.py:64-69 | an inclusive lower price bound; an absent or unparseable bound keeps all |
| Catalogue.AtMost | services/views.py:71-76 | an inclusive upper price bound; an absent or unparseable bound keeps all |
| Catalogue.FilteredShape | services/views.py:57-76 | the filters keep a subsequence of the catalogue holding exactly the admitted services |
| Catalogue.ListServices | services/views.py:57-85 | a permutation of the filtered services, sorted by price or rating as asked; any other `sort_by` keeps the filtered order |
| Catalogue.FindService | services/views.py:617-622 | the first service with the id; none iff no service has it |
| Catalogue.Siblings | services/views.py:629-630 | exactly the other services of the same category, in catalogue order |
| Catalogue.Related | services/views.py:629-630 | the first three siblings, or all when fewer; never the service itself |
| BookingList.SortDate | services/views.py:1342-1355 | the creation date when there is one, else the update date, else the very old date |
| BookingList.WithStatus | services/views.py:1371-1375 | exactly the bookings with that status |
| BookingList.CountsAddUp | services/views.py:1371-1384 | the five status tabs together count every booking |
| BookingList.TabsPartition | services/views.py:1371-1384 | no booking is in two status tabs, upcoming is pending followed by confirmed, and the total is the number of bookings |
| BookingList.ListBookings | services/views.py:1342-1384 | every booking once, newest first, and every tab in that order too |
| BookingStore.InvoiceByNumber | homeservice/views.py:556-562 | the first invoice with that number; none when no invoice has it |
| BookingStore.ServicerInvoice | homeservice/views.py:432-442 | the inserted invoice carries the provisional number and balanced amounts with the booking's total as subtotal |
| BookingStore.ServicerStatus | homeservice/views.py:538-540 | only `completed` and `rejected` are accepted targets |
| BookingStore.IndexRequestAsWritten | services/admin_views.py:372-381 | the index-based request as written changes nothing and gives no reply for a valid index |
| BookingStore.IndexApprovalIsLost | services/admin_views.py:372-381 | a lone pending booking that approval would confirm stays pending through the index path as written |
| BookingStore.Store.constructor | services/models.py:133-162 | an empty store satisfies the invariant |
| BookingStore.Store.Book | services/views.py:1066-1090 | the new booking is pending and unpaid, carries the encoded names, and stands first |
| BookingStore.Store.CancelAt | services/views.py:1743-1797 | out-of-range index gives "not found"; otherwise the customer's booking is cancelled iff pending or confirmed; nothing else changes |
| BookingStore.Store.CancelById | services/views.py:1895-1941 | true exactly when the user's booking with that id was pending or confirmed, and then only that booking is cancelled |
| BookingStore.Store.UpdateAt | services/views.py:1683-1733 | out-of-range index gives "not found"; otherwise only that booking's date and instructions change |
| BookingStore.Store.PayFor | services/views.py:2317-2420 | "not found" for a booking not the user's; refused without a method; otherwise only that booking becomes paid and the charged amounts are returned |
| BookingStore.Store.ApproveAt | services/admin_views.py:372-381 | the index request with its check and update applied: an invalid index gives "not found"; the selected pending booking is approved; nothing else changes |
| BookingStore.Store.RejectAt | services/admin_views.py:691-701 | the same for rejection |
| BookingStore.Store.ApproveBooking | services/admin_views.py:607-643 | the found booking is approved iff it is pending, and only it changes; otherwise "already processed" with its status and nothing changes |
| BookingStore.Store.RejectBooking | services/admin_views.py:850-868 | the same for rejection, recording reason, notes, admin and time |
| BookingStore.Store.ApproveMatching | services/admin_views.py:384-643 | a failed search (the corrected `Matching.FindForApproval`) changes nothing; the booking it singles out is approved and nothing else changes |
| BookingStore.Store.RejectMatching | services/admin_views.py:703-868 | the same for rejection |
| BookingStore.Store.UpdateServiceStatus | homeservice/views.py:529-590 | refused, changing nothing, unless POST, provider, non-empty invoice id and an accepted target; an unknown number is "not found"; a valid report moves the invoice's booking exactly when it is confirmed, and otherwise gives "not confirmed"; only that booking changes |
| BookingStore.Store.GenerateInvoice | services/admin_views.py:1049-1141 | nothing happens for an unknown or unpaid booking or one with an invoice; otherwise a balanced invoice with a generated number is added and recorded on the booking |
| BookingStore.Store.OpenInvoice | services/invoice_views.py:49-85 | the ORM branch: only the owner of a confirmed, paid booking gets an invoice; a stored one is returned unchanged, otherwise a balanced one is created |
| BookingStore.Store.ServicerDashboard | homeservice/views.py:419-496 | exactly the confirmed bookings, latest booking date first, each with its invoice number; a missing invoice is inserted with the provisional number; `total_assigned` is the length |
| BookingStore.Store.StockAll | homeservice/views.py:423-442 | one row per given position in that order, each naming the stored invoice of its booking; the invoice list grows by the provisional invoice of each listed booking that had none, and no booking is changed |
| BookingStore.ConfirmedByDate | homeservice/views.py:419-421 | the confirmed positions, a permutation, sorted by booking date descending |
| BookingStore.ConfirmedIndices | homeservice/views.py:419-421 | exactly the positions of confirmed bookings |
| Dashboard.Home | homeservice/views.py:9-20 | anonymous users get the home page, admins and superusers the admin dashboard, providers the servicer dashboard, everyone else the user dashboard |
| Dashboard.Guard | homeservice/views.py:160-161 | the admin dashboard admits exactly admins, the servicer dashboard exactly providers; others are sent to the user dashboard |
| Dashboard.ProviderGuard | homeservice/views.py:372-373 | the provider dashboard admits exactly providers |
| Dashboard.HomeLandsInside | homeservice/views.py:9-20 | `home` never sends a signed-in user to a dashboard that turns them away |
| Dashboard.GuardRedirectSettles | homeservice/views.py:404-405 | a redirected user is not redirected again |
| Dashboard.AggregateRevenue | services/admin_views.py:24-28 | no aggregate exactly when no booking is confirmed or completed and paid |
| Dashboard.AggregateIsRevenue | services/admin_views.py:24-28 | the aggregate, read as 0 when missing, is the sum over earning bookings |
| Dashboard.EarningInTwoSteps | services/admin_views.py:38-44 | filtering confirmed or completed and then paid keeps exactly the earning bookings |
| Dashboard.ManualSum | services/admin_views.py:38-44 | the manual loop computes the sum of the key over the earning bookings |
| Dashboard.DashboardRevenue | homeservice/views.py:166-201 | the revenue when non-zero, otherwise the sum of service prices over earning bookings |
| Dashboard.ComputeDashboardRevenue | homeservice/views.py:166-201 | the manual loops compute the dashboard's revenue figure |
| Dashboard.ZeroRevenueIffNoPositiveTotal | homeservice/views.py:184-185 | with non-negative totals, revenue is 0 iff every earning booking has a zero total |
| Dashboard.RevenueAppend | services/admin_views.py:24-28 | revenue over two lists together is the sum of their revenues |
| Dashboard.RecentServiceName | homeservice/views.py:239-249 | notes without a keyword are kept (`Home Service` when missing); otherwise the first keyword present in the order plumbing, electrical, cleaning, repair, installation picks its label; the result is the notes or one of the five labels |
| Dashboard.RecentServiceNameIdempotent | homeservice/views.py:239-249 | mapping a mapped name again changes nothing |
| Forms.RescheduleDate | services/forms.py:125-138 | a missing date passes unchanged; a date is accepted iff strictly after now and at most 365 days later, with the matching error otherwise |
| Forms.RescheduleWindowEdges | services/forms.py:130-136 | now itself is refused, exactly a year ahead is accepted, one second more is not |
| Forms.RescheduleStaysValid | services/forms.py:125-138 | a date accepted now stays accepted at any later moment before it |
| Forms.BookingDateAsWritten | services/forms.py:94-98 | a missing date is refused; any given date is cleaned to nothing |
| Forms.BookingDateIsDropped | services/forms.py:94-98 | every accepted booking date is lost |
| Forms.BookingDate | services/forms.py:94-98 | the corrected validator refuses exactly a missing date and otherwise returns the date |
| Forms.BookingDateAgreesOnErrors | services/forms.py:94-98 | the corrected and the written validator fail on the same inputs |
| Forms.CleanSchedule | services/forms.py:173-185 | accepted iff a day off, or both times given with start before end; missing times give their own error |
| Forms.EmptyShiftRefused | services/forms.py:182-183 | equal start and end on a working day are refused |
| Forms.CleanRating | services/forms.py:197-201 | accepted iff 0.5 <= rating <= 5, returned unchanged |
| Forms.StarRatingsPass | services/forms.py:197-201 | every star count 1..5 that the review model admits passes the form |
| AdminDisplay.BookingIdLabel | services/admin.py:179-180 | `BK-` and digits that parse back to the id; below 10^6 exactly nine characters with six digits |
| AdminDisplay.BookingIdLabelInjective | services/admin.py:179-180 | different ids never share a label |
| AdminDisplay.CustomerName | services/admin.py:187-188 | the full name when non-empty, otherwise the e-mail |
| AdminDisplay.ServiceProviderName | services/admin.py:92-95 | "No Provider" without a provider, otherwise the full name or e-mail |
| AdminDisplay.NamedProviderShown | services/admin.py:92-95 | a provider with an address is never shown blank or as having none |
| AdminDisplay.StatusColour | services/admin.py:195-203 | gray exactly for statuses outside the colour table, otherwise the table's colour |
| AdminDisplay.ColoursOfStatuses | services/admin.py:195-203 | the colours of the five statuses; rejected falls to gray and `in_progress` is no status |
| AdminDisplay.StatusColoursDistinct | services/admin.py:195-203 | statuses with a colour of their own get different colours |
| AdminDisplay.AmountShown | services/admin.py:211-213 | the total when non-zero, otherwise the service price |
| AdminDisplay.AmountShownZero | services/admin.py:211-213 | 0 is shown only when the total and the price are both 0 |
| AdminDisplay.PaymentLabel | services/admin.py:216-220 | "Paid" iff paid, "Unpaid" iff not |
| AdminDisplay.PaymentLabelAgrees | services/admin.py:216-220 | on a stored booking the column agrees with the payment status |
| Images.Demoted | services/models.py:112-113 | every image of the service loses the primary flag; others are untouched |
| Images.Find | services/models.py:114 | the row with that id, or none exactly when no row has it |
| Images.Written | services/models.py:114 | the row with the image's id is overwritten, or the image is added |
| Images.ImageTable.Save | services/models.py:110-114 | the table after a save is the demoted-then-written table |
| Images.WrittenUniqueIds | services/models.py:114 | writing keeps ids unique |
| Images.SavedPrimaryIsTheOne | services/models.py:110-114 | after saving a primary image it is the only primary image of its service |
| Images.SavedOnePrimary | services/models.py:110-114 | saving keeps at most one primary image per service |
| Images.OtherServicesUntouched | services/models.py:112-113 | images of other services keep their place and fields |
| Images.NonPrimaryTouchesNoOther | services/models.py:112-114 | saving a non-primary image changes no other row |
| EmailMigration.Fixed | services/migrations/0002_fix_email.py:6-8 | the row's address becomes lower case, nothing else changes, and a lower-case row is unchanged |
| EmailMigration.FixedAll | services/migrations/0002_fix_email.py:5-8 | every row is fixed in place; the number of rows is kept |
| EmailMigration.Unfixed | services/migrations/0002_fix_email.py:6 | the saved positions are exactly the rows whose address was not lower case |
| EmailMigration.UnfixedIncreasing | services/migrations/0002_fix_email.py:5-8 | saves happen in row order, each row at most once |
| EmailMigration.EmailTable.FixEmails | services/migrations/0002_fix_email.py:3-8 | the loop leaves the fixed table and saves exactly the rows that changed, in order |
| EmailMigration.AllLowerCase | services/migrations/0002_fix_email.py:5-8 | afterwards every address equals its lower-case form |
| EmailMigration.LowerCaseRowsUntouched | services/migrations/0002_fix_email.py:6 | lower-case rows are neither changed nor saved |
| EmailMigration.MigrationIdempotent | services/migrations/0002_fix_email.py:5-8 | a second run changes nothing and saves nothing |
| EmailMigration.OnlyEmailWritten | services/migrations/0002_fix_email.py:5-8 | only the address is written; the order and every other field stay |

## Left out

- Persistence: pymongo, the Django ORM, `get_or_create` and `save` are one in-memory store of bookings, invoices and images.
- Templates, `messages`, redirects and JSON replies: only the outcome and the kind of failure are modelled.
- QR codes and PDF rendering (`qrcode`, `reportlab`): foreign libraries. Only the PDF's gate and its provider-name line are modelled.
- Clock and randomness: `now`, the date for invoice numbers and the uuid text are parameters.
- Floating point: `float(...)` and `* 0.18` on floats are exact `real` arithmetic; IEEE rounding is not modelled.
- Unicode: `lower`, `upper`, `title` and `strip` are ASCII-only.
- Time zones and `make_aware`: dates are plain seconds.
- Strings of money (`₹{amount}`): the admin columns give the amount, not its `Decimal` text.
- The approve and reject requests' MongoDB "first pending booking" fallback (services/admin_views.py:496-589, 771-832): a recovery path with arbitrary selection. `Matching.FindForRejection` and `Matching.FindForApprovalAsWritten` end in `LookupFallback` where the request would enter it.
- The approve search's query-error fallback (services/admin_views.py:441-453), which searches by e-mail alone: a database exception is not modelled.
- The Decimal128 conversion of `total_amount` before the status checks (services/admin_views.py:591-605 and the same blocks in the cancel and edit views): amounts are already exact.
- The race double-check before `save()` (services/admin_views.py:646-652): the store is sequential, so it never fires.
- The servicer dashboard's ORM fallback (homeservice/views.py:461-482): it is reached only when MongoDB fails. Its `Decimal * 0.18` has the same type error as the invoice page's defaults (see Findings).
- `generate_invoice_after_approval` (services/admin_views.py:1016-1046): its `Decimal * 0.18` raises inside a `try` that swallows it, so it never creates an invoice; only the MongoDB version is modelled.
- Authentication decorators, CSRF and `json.loads`; management commands; the URL files; the context processor; the schema-only migration 0005; the sample-data literals.
- `provider_dashboard`'s listing (homeservice/views.py:375-400): only its guard is in the core.
- Stability of Python's sort: `Sorting.SortByKey` proves order by key and permutation, not that equal keys keep their order.
- `StatusColour` gives the colour only, not the HTML span around it.
- `Notes.MockServiceNameRoundTrip`, `Notes.ParseBriefRoundTrip`, `Notes.ParsePaymentInfoRoundTrip`: require the service name to contain no `-` at all, which is stronger than "does not contain ` - Provider: `"; `Notes.SeparatorFreeIsNotEnough` shows the weaker condition does not suffice.
- `BookingStore.Store.UpdateServiceStatus`: an invoice whose booking is missing and a booking that is not confirmed give the same `NotConfirmed` failure, as the single MongoDB query does.
- `Lifecycle.Pay`: the status is not consulted, as in the source; the view's ownership check is in `BookingStore.Store.PayFor`.
- Invoices.InvoiceDefaultsAlwaysRaise: assumes the ORM hands `total_amount` back as a `Decimal`; a float stored by the MongoDB insert at services/views.py:1079 and returned unconverted would multiply without error.
- `Invoices.InvoiceData`: the names on the page are inputs computed by `Notes.InvoiceServiceName` and `Notes.InvoiceProviderName`; the stand-in documents are not re-derived inside it.

## Findings

| source | as written | input that shows it | evidently intended | confidence | as-written member | corrected member |
|---|---|---|---|---|---|---|
| services/admin_views.py:372-381 | in the index-based branch of approve and reject, the booking is selected but the status check and the update sit inside the `else:` branch, so the view falls off the end and returns no response | one pending booking, request `{"booking_index": 0}` | approve or reject the selected pending booking | not executed | BookingStore.IndexApprovalIsLost | BookingStore.Store.ApproveAt |
| services/forms.py:94-98 | `BookingForm.clean_booking_date` has no `return`, so a valid date is cleaned to `None` | any non-empty booking date | return the date | not executed | Forms.BookingDateIsDropped | Forms.BookingDate |
| services/views.py:2686-2694 | `InvoiceView` multiplies the `Decimal` total by the float literals `0.18` and `1.18`, which raises `TypeError`; the page never reaches its invoice | a confirmed, paid booking whose `total_amount` is loaded as a `Decimal` (the `DecimalField` at services/models.py:142) | multiply by `Decimal('0.18')` and `Decimal('1.18')`, as services/invoice_views.py:59-66 does | not executed | Invoices.InvoiceDefaultsAlwaysRaise | BookingStore.Store.OpenInvoice |
| services/admin_views.py:424-431 | the `except` names `InvalidOperation`, which the same function binds only by the later local import at services/admin_views.py:592, so the handler raises `UnboundLocalError`; the outer `except Exception` at services/admin_views.py:488 sends the request to the MongoDB fallback instead of replying | a pending booking and the amount "abc" | reply "Invalid booking amount format" | not executed | Matching.InvalidAmountReplyUnreachable | Matching.FindForApproval |
| services/invoice_views.py:264-273 | the MongoDB PDF path checks only ownership, so an unapproved, unpaid booking gets an invoice PDF | a pending, unpaid booking of the user | the gate of the other invoice views: confirmed and paid | not executed | Invoices.UnpaidBookingIsPrinted | Invoices.PdfGate |
