# Real-estate marketplace backend — a Dafny model

This project models a REST backend for a real-estate marketplace. It has three kinds of principals:

- renters (users);
- listing agents, who need an administrator's approval before they can log in;
- administrators.

The model covers:

- the request handlers for apartments, bookings, payments and refunds, inspections, reviews, reports, favourites and notifications;
- user, agent and administrator accounts;
- the authentication middleware that turns a bearer token into the calling principal.

**The document store.** The store is one class, `Database.Db`. Each collection is a `map` from record id to record. A single counter `nextId` stands in for ObjectId generation, so every key is below it.

`Db.Valid()` collects what the store keeps true:

- fresh ids;
- the schemas' unique indexes:
  - bookings on (user, apartment, status);
  - reviews on (user, apartment);
  - favourites on (user, apartment);
  - payments on transaction id;
  - user e-mail;
- agent and administrator e-mail uniqueness, which their register handlers keep;
- review ratings in 1..5.

**Handlers.** Each handler is a method on the store.

- Its `modifies` clause names only the collections that request may write, so "nothing else changes" is part of the frame.
- Its postcondition gives, for every HTTP status it can answer, the exact condition under which it answers it, in both directions.
- On success it gives the new contents of the collections it wrote. On failure it leaves the store unchanged.

Read-only endpoints are functions that read the store.

**JavaScript semantics that are modelled.**

- A missing request field is `None`. JavaScript truthiness is modelled explicitly: the empty string and the number 0 are falsy.
- A save that violates a unique index, or an enum value that the Mongoose schema does not list, answers 500. Any writes made before the failing save remain.
- When `populate()` finds a deleted reference it yields `null`, and reading `._id` from it throws. This also answers 500.

**Module layout.** Each controller is one module:

- `Apartments`, `Bookings`, `Payments`, `Inspections`, `Reviews`, `Reports`, `Favourites`, `Notifications`, `Users`, `Agents`, `Admins`, `Auth`.
- `Entities` holds the records and the schemas' enums.
- `Common` holds JavaScript truthiness and the shared arithmetic (percentages, page counts, local midnight).
- `Sorting` holds the stable insertion-by-key used for sorted listings.
- `Scenarios` holds request sequences run against an empty store. They show cross-handler behaviour through the handlers' own contracts.

**Callers.** The caller of a handler is a `Principal`, built by `Auth.Protect` from the record that the token's role claim names:

- the record's `role` field, if that kind of record has one;
- the agent's approval `status`, for an agent;
- the token's role claim itself.

Handlers that test `req.user.role` test the record's field, as the code does. Agent records have no role field at all.

## Model

| member | source | states |
|---|---|---|
| Common.OrDefault | backend/Controllers/userController.js:106-107 | `x \|\| fallback`: the supplied text when it is truthy, the fallback otherwise |
| Common.PercentRate | backend/Controllers/bookingController.js:292-293 | `Math.round(part / total * 100)` as round-half-up integer division; 0 for an empty total |
| Common.PercentRateInRange | backend/Controllers/paymentController.js:259-260 | a rate over a part of the total lies in 0..100 |
| Common.PageCount | backend/Controllers/notificationController.js:54 | `Math.ceil(total / limit)`: the least page count covering the total for a positive limit, the negative-limit case, and no number (NaN or Infinity) for a zero limit |
| Common.LocalMidnight | backend/Controllers/inspectionController.js:45-53 | `setHours(0,0,0,0)`: the start of the local day in the server's time zone, at most one day before now |
| Common.LaterTodayIsNotPast | backend/Controllers/inspectionController.js:45-53 | any instant from today's local midnight to the next falls on the same local date as now |
| Entities.ParseCategory | backend/Models/apartmentmodel.js:20 | a string is accepted as a category exactly when it is one of the four enum names |
| Entities.ParseBookingStatus | backend/Models/bookingmodel.js:18 | a string is accepted as a booking status exactly when it names one (the enum with "confirmed" restored; see Findings) |
| Entities.ParsePaymentMethod | backend/Models/paymentModel.js:26 | a string is accepted exactly when it names a payment method |
| Entities.ParseInspectionStatus | backend/Models/inspectionmodel.js:34 | a string is accepted exactly when it names an inspection status |
| Entities.ParseReportType | backend/Models/reportmodel.js:23 | a string is accepted exactly when it names a report type |
| Entities.ParseReportStatus | backend/Models/reportmodel.js:28 | a string is accepted exactly when it names a report status |
| Entities.ParsePriority | backend/Models/reportmodel.js:33 | a string is accepted exactly when it names a priority |
| Entities.ParseAgentStatus | backend/Models/agentmodel.js:11 | a string is accepted exactly when it names an agent approval status |
| Entities.ParseNotificationType | backend/Models/notificationModel.js:12 | a string is accepted exactly when it names a notification type |
| Database.BookingSaveKeepsIndex | backend/Models/bookingmodel.js:54 | a booking save that the unique (user, apartment, status) index accepts keeps the index unique |
| Database.BookingSaveKeepsIndexIf | backend/Models/bookingmodel.js:54 | the same, for a map that may not yet be unique |
| Sorting.InsertBy | backend/Controllers/apartmentController.js:59-61 | inserting into a listing adds exactly one element: the result is a permutation of the old listing plus the new element |
| Sorting.InsertByMembers | backend/Controllers/apartmentController.js:59-61 | the insertion's members are the new element and the old members |
| Sorting.InsertedFrom | backend/Controllers/apartmentController.js:59-61 | every other member of the insertion occurs at some index of the old listing |
| Sorting.InsertBySorted | backend/Controllers/apartmentController.js:59-61 | inserting into a listing sorted by key keeps it sorted |
| Sorting.InsertByDistinct | backend/Controllers/favouriteController.js:301-304 | inserting an element whose projection is new keeps the projections distinct |
| Apartments.AvailableIds | backend/Controllers/apartmentController.js:10 | `find({ availability: true })`: exactly the available apartments |
| Apartments.NoCriteriaListsAvailable | backend/Controllers/apartmentController.js:43 | the filter with no criteria lists exactly the available apartments |
| Apartments.FilterApartments | backend/Controllers/apartmentController.js:39-68 | lists exactly the available apartments that match location (regex), category and the inclusive price bounds (a supplied bound constrains, an absent one is ignored), each once, in ascending price |
| Apartments.SearchApartments | backend/Controllers/apartmentController.js:228-256 | 400 exactly when the query is falsy; otherwise the available apartments whose location, description or category matches; never an unavailable one |
| Apartments.AdminApartments | backend/Controllers/apartmentController.js:182-200 | the admin listing filters by "available", "unavailable" or neither, and by agent when one is given |
| Apartments.AdminStatusFilterSplits | backend/Controllers/apartmentController.js:187-189 | "available" and "unavailable" partition the unfiltered listing; any other status value filters nothing |
| Apartments.NewApartment | backend/Controllers/apartmentController.js:96-104 | a new listing is owned by the caller, available, unrated, and has no images unless some were given |
| Apartments.CreateApartment | backend/Controllers/apartmentController.js:86-116 | 400 exactly when location, price, category or description is falsy; 500 exactly when the category is outside the enum; otherwise one new listing under a fresh id |
| Apartments.PatchedApartment | backend/Controllers/apartmentController.js:133-143 | each field that is not `undefined` replaces the stored one; owner and rating are kept |
| Apartments.UpdateApartment | backend/Controllers/apartmentController.js:119-155 | 404 for a missing listing; 403 unless the caller owns it; 500 when the patch empties location or description or names a category outside the enum; otherwise only that listing changes, to the patch |
| Apartments.EmptyPatchIsIdentity | backend/Controllers/apartmentController.js:128-143 | an update that supplies no fields leaves the listing as it was |
| Apartments.DeleteApartment | backend/Controllers/apartmentController.js:158-177 | 404, 403 unless the caller owns the listing, otherwise exactly that listing is removed; its bookings, reviews and other records stay; the agent controller's deleteApartment (agentController.js:267-288) is the same handler |
| Apartments.UpdateApartmentStatus | backend/Controllers/apartmentController.js:203-223 | 404 for a missing listing; otherwise only its availability changes, to the supplied boolean |
| Bookings.AgentDecision | backend/Controllers/bookingController.js:174-178 | exactly "approved", "rejected" and "cancelled" are accepted as decisions |
| Bookings.CreateBooking | backend/Controllers/bookingController.js:8-57 | 404 for a missing apartment; 400 exactly when it is unavailable or the caller already has a pending or approved booking for it; otherwise one pending unpaid booking and the apartment made unavailable |
| Bookings.CancelBooking | backend/Controllers/bookingController.js:80-113 | 404, 403 unless the caller booked it, 500 when the booking's apartment is gone; otherwise the booking is removed and the apartment made available |
| Bookings.GetBookingById | backend/Controllers/bookingController.js:116-145 | 404; 500 when the booker's record is gone; the booking is returned exactly to its booker or a caller whose record role is "admin" or "agent", 403 to anyone else |
| Bookings.UpdateBookingStatus | backend/Controllers/bookingController.js:169-211 | 400 for a non-decision; 404; 403 unless the listing agent; rejection or cancellation makes the apartment available, approval leaves it; the status save fails with 500 exactly when it collides with the unique index, the apartment already saved |
| Bookings.DeleteBooking | backend/Controllers/bookingController.js:238-267 | 404, otherwise the booking is removed; only an approved booking frees its apartment |
| Bookings.BookingStatsOf | backend/Controllers/bookingController.js:270-299 | each status count is the number of bookings with that status; they sum to at most the total; the approval rate is the rounded percentage of approved bookings |
| Bookings.StatusCountsWithinTotal | backend/Controllers/bookingController.js:279-283 | the four status counts never exceed the number of bookings |
| Payments.CreatePayment | backend/Controllers/paymentController.js:15-87 | 400 for a missing booking id, amount or method, or a booking of the caller already paid; 404 for a missing booking; 403 for another tenant's booking; 500 only for an invalid method, a negative amount or a taken transaction id; otherwise one pending payment for the booking's apartment |
| Payments.Completion | backend/Controllers/paymentController.js:60-64 | settlement marks exactly that payment completed and stamps `paidAt` |
| Payments.SaveBookingAsWritten | backend/Controllers/paymentController.js:65-69 | with the schema as written, a booking save with status "confirmed" changes nothing |
| Payments.SettleAsWritten | backend/Controllers/paymentController.js:60-70 | with the schema as written, settlement completes the payment and leaves every booking as it was |
| Payments.Settle | backend/Controllers/paymentController.js:60-70 | settlement completes the payment and makes the booking confirmed and paid, unless that save conflicts with the unique index |
| Payments.RefundWindowOpen | backend/Controllers/paymentController.js:170-177 | a refund may be requested up to seven days after payment, or at any time for a payment never stamped (the day count is NaN) |
| Payments.RefundWindowMonotone | backend/Controllers/paymentController.js:170-177 | once the refund window has closed it stays closed |
| Payments.RequestRefund | backend/Controllers/paymentController.js:137-193 | 404, 403 for another tenant's payment, 400 unless completed, not already requested and within the window; otherwise that payment becomes refund-pending with the reason |
| Payments.ProcessRefund | backend/Controllers/paymentController.js:300-359 | 400 for an unknown action or a payment with no refund request, 404; rejection clears the request and restores "completed"; approval refunds the payment, marks its booking cancelled and refunded, and frees the apartment; 500 with nothing saved exactly when that booking save collides with the unique index |
| Payments.ApproveRefund | backend/Controllers/paymentController.js:324-343 | the approve branch: the payment becomes refunded with its processing time, its booking (when present) cancelled and refunded, and its apartment (when present) available; 500 with nothing stored exactly when the booking save collides with the unique index |
| Payments.PaymentStatsOf | backend/Controllers/paymentController.js:362-425 | `total` is the size of the scope and `completed`, `pending`, `failed` are exactly the numbers of its payments with each status (summing to at most the total); the success rate is the completed share as a percentage rounded half up, 0 for an empty scope |
| Payments.AgentPaymentStats | backend/Controllers/paymentController.js:223-266 | over the payments for the agent's apartments: the total, the exact completed, pending and failed counts, and `successRate` as the rounded percentage of completed payments, within 0..100 |
| Payments.AllPaymentStats | backend/Controllers/paymentController.js:362-425 | over every payment: the total, the exact completed, pending and failed counts, and `successRate` as the rounded percentage of completed payments, within 0..100 |
| Inspections.RequestInspection | backend/Controllers/inspectionController.js:10-80 | 400 without apartment or date, for an unavailable apartment, a pending request of the caller for it, or a date before today's midnight in the server's time zone; 404 for a missing apartment; otherwise one pending request addressed to the listing agent |
| Inspections.SameDayAccepted | backend/Controllers/inspectionController.js:45-53 | a date on the same local day as now is not refused as past |
| Inspections.EarlierDayRejected | backend/Controllers/inspectionController.js:45-53 | a date on an earlier local day is refused as past |
| Inspections.CancelInspectionRequest | backend/Controllers/inspectionController.js:103-137 | 404, 403 for another user's request, 400 unless it is pending; otherwise it becomes cancelled |
| Inspections.RescheduleInspection | backend/Controllers/inspectionController.js:140-198 | 400 without a date, or for a request not pending or a past date; 404; 403 for another user's request; otherwise new date (and time when given), pending |
| Inspections.RescheduledKeepsRequest | backend/Controllers/inspectionController.js:172-182 | rescheduling changes only date, time and status, and a falsy time keeps the old one |
| Inspections.InspectionDecision | backend/Controllers/inspectionController.js:228-230 | exactly "approved" and "rejected" are accepted |
| Inspections.UpdateInspectionStatus | backend/Controllers/inspectionController.js:223-269 | 400, 404, 500 for a deleted apartment, 403 unless the listing agent; otherwise the decision and, on rejection, the reason are stored |
| Inspections.DecisionIgnoresPriorStatus | backend/Controllers/inspectionController.js:250-259 | a decision's outcome does not depend on the status before it, so a completed inspection can be re-decided |
| Inspections.CompleteInspection | backend/Controllers/inspectionController.js:272-313 | 404, 500 for a deleted apartment, 403 unless the listing agent, 400 unless approved; otherwise completed with its notes and follow-up flag |
| Inspections.GetInspectionById | backend/Controllers/inspectionController.js:419-455 | role "admin" sees every request, role "agent" those on its listings, role "user" its own (500 when the populated record is gone); any other role gets 403 |
| Inspections.StatusCountsWithin | backend/Controllers/inspectionController.js:316-354 | the five status counts over a scope never exceed the scope's size |
| Inspections.StatsOver | backend/Controllers/inspectionController.js:382-414 | `total` is the scope's size; each of the five status counts is exactly the number of requests in the scope with that status (together at most the total); `upcoming` is exactly the approved requests dated now or later; the rate is the chosen status's share rounded half up |
| Inspections.AgentInspectionStats | backend/Controllers/inspectionController.js:316-354 | over the requests addressed to the agent: the total, the exact pending, approved, rejected and completed counts, the upcoming approved inspections, and `approvalRate` as the rounded percentage of approved requests, within 0..100 |
| Inspections.AllInspectionStats | backend/Controllers/inspectionController.js:382-414 | over every request: the total, the exact pending, approved, rejected, completed and cancelled counts, and `completionRate` as the rounded percentage of completed requests, within 0..100 |
| Reviews.AverageTenths | backend/Controllers/reviewController.js:88-92 | the mean of the ratings to one decimal place, rounded half up |
| Reviews.RatingsCount | backend/Controllers/reviewController.js:85-95 | the ratings read are one per review of the apartment |
| Reviews.RatingsInBounds | backend/Models/reviewModel.js:20-24 | every rating read for an apartment lies in 1..5, as the schema's bounds keep it |
| Reviews.SumBounds | backend/Controllers/reviewController.js:88 | a sum of ratings in 1..5 lies between the count and five times it |
| Reviews.AverageInRange | backend/Controllers/reviewController.js:88-92 | the stored average of a reviewed apartment lies between 1.0 and 5.0 |
| Reviews.RerateMeaning | backend/Controllers/reviewController.js:84-96 | recomputation touches only that apartment; with no reviews nothing changes; otherwise its count and its average in 1.0..5.0 |
| Reviews.UpdateApartmentRating | backend/Controllers/reviewController.js:84-96 | the apartments after the recomputation are the rerated map |
| Reviews.SubmitReview | backend/Controllers/reviewController.js:9-81 | 400 without an apartment, without a truthy rating in 1..5, or for a second review; 404; 403 without a confirmed booking unless role "admin"; otherwise one review and the apartment rerated, counting it with a mean in 1.0..5.0 |
| Reviews.UpdateReview | backend/Controllers/reviewController.js:114-155 | 404, 403 for another user's review, 400 for a rating outside 1..5; otherwise the patched review and the apartment rerated |
| Reviews.DeleteReview | backend/Controllers/reviewController.js:158-188 | 404, 403 unless the author or role "admin"; otherwise the review is gone and the apartment rerated |
| Reviews.AdminDeleteReview | backend/Controllers/reviewController.js:366-389 | 404, otherwise the review is gone and the apartment rerated |
| Reviews.RespondToReview | backend/Controllers/reviewController.js:301-338 | 400 for an empty response, 404, 500 for a deleted apartment, 403 unless the listing agent; otherwise only that review gets the response |
| Reports.InitialPriority | backend/Controllers/reportController.js:40-47 | fraud and safety reports start at high priority, every other report at medium |
| Reports.SubmitReport | backend/Controllers/reportController.js:10-62 | 400 without apartment or message, or when the caller filed an open report on it in the last 24 hours; 404; 500 for a type outside the enum; otherwise one open report with its initial priority |
| Reports.DefaultReportIsGeneral | backend/Controllers/reportController.js:40-47 | a report without a type is "general" at medium priority |
| Reports.AgentReportGuard | backend/Controllers/reportController.js:142-163 | 404, 500 for a deleted apartment, 403 unless the listing agent |
| Reports.RespondToReport | backend/Controllers/reportController.js:137-175 | 400 for an empty response, then the guard; otherwise the response is stored and the report is in progress |
| Reports.AgentResolveReport | backend/Controllers/reportController.js:178-212 | the guard; otherwise the report is resolved with its notes |
| Reports.UpdateReportPriority | backend/Controllers/reportController.js:293-321 | 400 for a priority outside low, medium and high, 404; otherwise only the priority changes |
| Reports.AssignReportToAgent | backend/Controllers/reportController.js:324-363 | 404 for a missing report or agent, 500 for a deleted apartment; otherwise the report is assigned and the agent becomes the apartment's owner |
| Reports.DeleteReport | backend/Controllers/reportController.js:366-385 | 404, otherwise exactly that report is removed |
| Reports.EscalateReport | backend/Controllers/reportController.js:388-414 | 404, otherwise high priority, escalated, with the notes |
| Favourites.AddToFavorites | backend/Controllers/favouriteController.js:8-55 | 400 without an apartment or for a repeat; 404 for a missing apartment; otherwise one favourite with its notes and tags |
| Favourites.PatchedFavorite | backend/Controllers/favouriteController.js:124-131 | supplied notes and tags replace the old ones; owner and apartment are kept |
| Favourites.PatchedFavoriteLaws | backend/Controllers/favouriteController.js:124-131 | an empty patch is the identity; a full patch overrides any earlier one |
| Favourites.UpdateFavorite | backend/Controllers/favouriteController.js:112-146 | 404, 403 for another user's favourite; otherwise the patched record |
| Favourites.RemoveFromFavorites | backend/Controllers/favouriteController.js:149-175 | 404, 403, otherwise exactly that favourite is removed |
| Favourites.RemoveApartmentFromFavorites | backend/Controllers/favouriteController.js:178-202 | 404 when the caller has not saved the apartment; afterwards the caller has no favourite for it |
| Favourites.FavoritesOf | backend/Controllers/favouriteController.js:207 | exactly the caller's favourites |
| Favourites.ClearAllFavorites | backend/Controllers/favouriteController.js:205-216 | removes exactly the caller's favourites and keeps everyone else's |
| Favourites.UserFavorites | backend/Controllers/favouriteController.js:58-89 | the caller's favourites, carrying the tag when a truthy tag is given |
| Favourites.TagFilterNarrows | backend/Controllers/favouriteController.js:62-63 | the tag filter only narrows the listing, and an empty tag filters nothing |
| Favourites.AllTags | backend/Controllers/favouriteController.js:296-300 | the tags met by the nested loop are exactly the favourites' tags |
| Favourites.Occurrences | backend/Controllers/favouriteController.js:298 | a tag's count is positive exactly when it occurs |
| Favourites.OccurrencesSnoc | backend/Controllers/favouriteController.js:298 | one more tag raises only its own count, by one |
| Favourites.TallyStep | backend/Controllers/favouriteController.js:298 | one tally step keeps counts equal to occurrences, with names in first-seen order |
| Favourites.AllTagsNext | backend/Controllers/favouriteController.js:296-300 | the outer loop over favourites adds each favourite's tags in turn |
| Favourites.TallyTags | backend/Controllers/favouriteController.js:297-299 | the inner loop counts each of one favourite's tags |
| Favourites.CountTags | backend/Controllers/favouriteController.js:295-300 | after both loops every tag's count is its number of occurrences |
| Favourites.ListStep | backend/Controllers/favouriteController.js:301-304 | inserting one entry keeps the list sorted by count, distinct by name and correctly counted |
| Favourites.SortByCount | backend/Controllers/favouriteController.js:301-304 | the entries are sorted by descending count, one per tag |
| Favourites.GetFavoriteTags | backend/Controllers/favouriteController.js:291-313 | over the caller's stored favourites, in the order the query returns them: one entry per distinct tag with its number of occurrences across those favourites, each tag once and only the caller's tags, in descending count order |
| Notifications.NotificationDoc | backend/Controllers/notificationController.js:6-26 | a notification is built exactly when its type is valid, its title and message are truthy, its priority (medium by default) is valid and any supplied `relatedModel` is one of the schema's six model names; the built document carries the caller's fields, unread and unarchived |
| Notifications.CreateNotification | backend/Controllers/notificationController.js:6-26 | stores exactly the built notification under a fresh id, and stores nothing when title, message, type, priority or `relatedModel` fails the schema |
| Notifications.DefaultPriorityIsMedium | backend/Controllers/notificationController.js:17 | a notification without a priority gets medium |
| Notifications.GetUserNotifications | backend/Controllers/notificationController.js:31-62 | the total counts the caller's notifications matching the read and type filters; the unread count ignores the filters; the pages cover the total |
| Notifications.UnreadCountIsUnreadListing | backend/Controllers/notificationController.js:33-54 | listing with `read=false` totals the unread count |
| Notifications.ReadFilterSplitsListing | backend/Controllers/notificationController.js:33-45 | read and unread listings split the unfiltered listing |
| Notifications.OwnerGuard | backend/Controllers/notificationController.js:71-83 | 404 for a missing notification, 403 for another user's |
| Notifications.MarkAsRead | backend/Controllers/notificationController.js:65-93 | the guard; otherwise only that notification becomes read |
| Notifications.ArchiveNotification | backend/Controllers/notificationController.js:113-141 | the guard; otherwise only that notification becomes archived |
| Notifications.DeleteNotification | backend/Controllers/notificationController.js:144-170 | the guard; otherwise exactly that notification is removed |
| Notifications.MarkedAllRead | backend/Controllers/notificationController.js:98-101 | keeps the set of notifications |
| Notifications.MarkedAllReadMeaning | backend/Controllers/notificationController.js:96-110 | all of the caller's notifications become read, nobody else's change, and the caller has none unread |
| Notifications.MarkAllAsRead | backend/Controllers/notificationController.js:96-110 | the store afterwards is the all-read map |
| Notifications.ClearAllNotifications | backend/Controllers/notificationController.js:173-184 | removes exactly the caller's notifications |
| Notifications.WithSettings | backend/Controllers/notificationController.js:217-220 | each supplied preference replaces the old one |
| Notifications.WithSettingsLaws | backend/Controllers/notificationController.js:217-220 | an empty update is the identity; a full update overrides any earlier one |
| Notifications.UpdateNotificationSettings | backend/Controllers/notificationController.js:203-232 | 500 when the caller's user record is gone; otherwise only its preferences change |
| Notifications.Batches | backend/Controllers/notificationController.js:261-264 | batches of at most 100, all full but the last, concatenating to the input |
| Notifications.BroadcastDocs | backend/Controllers/notificationController.js:251-258 | one broadcast notification per user, in user order |
| Notifications.InsertMany | backend/Controllers/notificationController.js:263 | one batch lands under consecutive fresh ids |
| Notifications.AppendedTwice | backend/Controllers/notificationController.js:261-264 | inserting two batches in turn equals inserting their concatenation |
| Notifications.InsertBatches | backend/Controllers/notificationController.js:261-264 | the loop over batches stores the concatenation under consecutive fresh ids |
| Notifications.SendBroadcastNotification | backend/Controllers/notificationController.js:237-274 | 400 without title or message; 500 for an invalid type or priority when there is a user; otherwise exactly one notification per user, stored in user order, and the count of users |
| Notifications.BroadcastReachesEachUserOnce | backend/Controllers/notificationController.js:251-258 | every user receives exactly one broadcast notification |
| Users.RegisterUser | backend/Controllers/userController.js:12-50 | 400 for a missing name, e-mail, password or phone, or a taken e-mail; otherwise one user with the hashed password, role "user" and default preferences |
| Users.LoginUser | backend/Controllers/userController.js:52-84 | succeeds exactly for a stored e-mail whose password matches, and then returns that user |
| Users.UpdateUserProfile | backend/Controllers/userController.js:101-124 | 500 when the record is gone, otherwise name and phone when truthy |
| Users.ProfileUpdateKeepsCredentials | backend/Controllers/userController.js:106-107 | a profile update keeps e-mail, password and role |
| Users.UserApartments | backend/Controllers/userController.js:128-157 | the available apartments matching location, category and the inclusive price bounds, by the same filter as `filterApartments` |
| Users.PriceBoundsInclusive | backend/Controllers/userController.js:142-146 | both price bounds are inclusive |
| Users.BookApartment | backend/Controllers/userController.js:177-228 | 400 without an apartment, when it is unavailable, or for any earlier booking of it in any status; 404; otherwise one pending booking and the apartment made unavailable |
| Users.BookApartmentIsStricter | backend/Controllers/userController.js:194-201 | whatever the booking controller refuses as a repeat, this route refuses too |
| Users.RejectedBookingBlocksOnlyBookApartment | backend/Controllers/userController.js:194-201 | a rejected booking blocks this route but not the booking controller's |
| Users.CancelBooking | backend/Controllers/userController.js:249-271 | 404, 403 for another user's booking; otherwise the booking is removed and its apartment, if it still exists, made available |
| Users.SubmitReport | backend/Controllers/userController.js:275-310 | 400 without apartment or message, 404; otherwise one open report |
| Users.RequestInspection | backend/Controllers/userController.js:327-365 | 400 without apartment or date, 404; otherwise one pending request to the listing agent |
| Agents.RegisterAgent | backend/Controllers/agentController.js:10-53 | 400 for a missing name, e-mail, password or phone, or a taken e-mail; otherwise one agent, pending approval, with the hashed password |
| Agents.LoginAgent | backend/Controllers/agentController.js:56-103 | 400 without credentials, 401 unless they match, 403 for an agent not yet approved; success only for an approved agent |
| Agents.UpdateAgentProfile | backend/Controllers/agentController.js:120-147 | 404 when the record is gone, otherwise name and phone when truthy |
| Agents.ProfileUpdateKeepsStatus | backend/Controllers/agentController.js:125-130 | a profile update keeps e-mail, password and approval status |
| Agents.CreateApartment | backend/Controllers/agentController.js:200-228 | 400 for a falsy location, price, category or description, or no images; 500 for an invalid category; otherwise one available listing owned by the caller |
| Agents.WhenTruthy | backend/Controllers/agentController.js:248-252 | a text field is applied exactly when truthy |
| Agents.WhenTruthyNumber | backend/Controllers/agentController.js:249 | a number field is applied exactly when truthy |
| Agents.AgentPatched | backend/Controllers/agentController.js:236-254 | truthy fields replace the old ones; owner and rating are kept |
| Agents.PatchesAgreeOnTruthyFields | backend/Controllers/agentController.js:248-253 | on truthy fields both update routes agree; an empty location clears it only in the apartment controller |
| Agents.PatchCategory | backend/Controllers/agentController.js:250 | a category is applied only when truthy |
| Agents.UpdateApartment | backend/Controllers/agentController.js:231-264 | 404, 403 for another agent's listing, 500 for a truthy invalid category; otherwise the agent patch |
| Agents.AgentInspectionDecision | backend/Controllers/agentController.js:311-313 | exactly "approved", "rejected" and "pending" are accepted |
| Agents.UpdateInspectionStatus | backend/Controllers/agentController.js:306-336 | 400, 404, 403 for another agent's request; otherwise only its status changes |
| Agents.AgentDecisionsWiden | backend/Controllers/agentController.js:311-313 | the agent route accepts the inspection controller's decisions and also "pending" |
| Agents.UpdateBookingStatus | backend/Controllers/agentController.js:357-390 | 404; 403 for another agent's listing; "rejected" frees the apartment before the save; 500 for a deleted apartment, a status outside the schema, or a save colliding with the unique index |
| Admins.RegisterAdmin | backend/Controllers/adminController.js:12-46 | 400 for a missing field or a taken e-mail; otherwise one administrator with the hashed password |
| Admins.LoginAdmin | backend/Controllers/adminController.js:49-87 | 400 without credentials, 401 unless they match; success returns the matching administrator |
| Admins.AgentVerdict | backend/Controllers/adminController.js:161-163 | exactly "approved" and "rejected" are accepted; an agent is never sent back to pending |
| Admins.UpdateAgentStatus | backend/Controllers/adminController.js:156-186 | 400, 404; otherwise only that agent's status changes |
| Admins.DeleteAgent | backend/Controllers/adminController.js:189-212 | 404; 400 for an agent with listings; otherwise the agent is removed and no listing refers to it |
| Admins.AdminReportStatus | backend/Controllers/adminController.js:260-262 | exactly "open" and "resolved" are accepted |
| Admins.UpdateReportStatus | backend/Controllers/adminController.js:255-277 | 400, 404; otherwise only that report's status changes |
| Auth.BeforeSpace | backend/Middlewares/authMiddleware.js:12 | the longest space-free prefix |
| Auth.SecondWord | backend/Middlewares/authMiddleware.js:12 | `split(" ")[1]`: the word after the first space, none when there is no space |
| Auth.Protect | backend/Middlewares/authMiddleware.js:9-41 | 401 exactly without a Bearer header, for a token that does not verify, or when the record its role claim names is missing; otherwise that record's principal |
| Auth.AgentGateAdmitsApprovedAgents | backend/Middlewares/authMiddleware.js:47-53 | the agent gate admits exactly approved agents holding agent tokens |
| Auth.AdminGateAdmitsAdministrators | backend/Middlewares/authMiddleware.js:56-61 | whoever passes the admin gate has an administrator record |
| Auth.AgentsHaveNoRole | backend/Middlewares/authMiddleware.js:26-36 | an agent caller never passes a handler's `req.user.role` test |
| Auth.UserRoleAdminIsNotAdminToken | backend/Middlewares/authMiddleware.js:56-61 | a user record with role "admin" passes handler role tests but not the admin gate |
| Scenarios.Listed | backend/Controllers/apartmentController.js:86-116 | a new listing in an empty store is available and owned by its agent |
| Scenarios.DeletedPendingBookingStrandsApartment | backend/Controllers/bookingController.js:250-258 | deleting a pending booking leaves its apartment unavailable with no booking left |
| Scenarios.BookedByTwo | backend/Controllers/bookingController.js:8-57 | after one tenant books, an administrator reopens the listing and a second tenant books it, two pending bookings hold the same, unavailable, apartment |
| Scenarios.CancelFreesApartmentBookedByAnother | backend/Controllers/bookingController.js:97-101 | after an administrator reopens a listing and a second tenant books it, the first tenant's cancellation makes it available while the second booking is still pending |
| Scenarios.BookedAndPaid | backend/Controllers/paymentController.js:15-87 | a tenant's booking and payment lead to one pending booking and one payment |
| Scenarios.ReviewAfterSettlementAsWritten | backend/Controllers/reviewController.js:32-42 | with the schema as written, the paying tenant is refused a review after settlement |
| Scenarios.ReviewAfterSettlement | backend/Controllers/reviewController.js:32-42 | with "confirmed" in the schema, the paying tenant may review after settlement |
| Scenarios.ApprovalOpensAgentLogin | backend/Controllers/agentController.js:77-81 | a new agent is refused at login until an administrator approves, and admitted afterwards |

## Left out

- **Not modelled:**
  - The analytics controller and model.
  - The mailer, the routes, `index.js`, the database connection and the admin seeding script.
  - `adminModel.js` is not part of this model. The role it gives a new administrator record is the parameter `schemaRole` of `Admins.RegisterAdmin`.
- **External calls passed in as parameters:**
  - JWT signing and verification is the parameter `verify` of `Auth.Protect`.
  - bcrypt is the parameters `hash` and `passwordMatches`.
  - Case-insensitive regular-expression matching is the parameter `matches`.
  - Transaction-id generation is the parameter `transactionId`.
  - The current time is the parameter `now`, and the server process's time-zone offset is `offset`.
  - The agent certificate upload is the parameter `certificate`.
- **Settlement timing:**
  - The `setTimeout` settlement delay is not modelled.
  - Settlement is the separate method `Payments.Settle`, which a caller invokes explicitly.
  - A lost timer (a process restart) is a settlement that is never invoked.
- **Concurrency.**
  - Requests are sequential.
  - Races between the find and the save of one handler are not modelled.
  - Neither is a race between two settlements.
- **Listings and sorting:**
  - Pagination offsets (`skip`, `limit` on the lists themselves) are not modelled, and neither is sorting by `createdAt`.
  - The `populate`d projections of returned documents are not modelled.
  - Handlers that only read one document, or a dashboard, are not modelled: `getApartmentById`, the agent dashboard and apartment lists, user booking lists, payment and report listings.
  - `GetFavoriteTags`: the tally is modelled as a proper dictionary. The source counts into a plain object (`tags[tag] = (tags[tag] || 0) + 1`), so a tag named after an `Object.prototype` property differs there: "constructor" gets a string count that makes the descending sort compare NaN, and "__proto__" never appears in the result. The model gives both their occurrence count in sorted position.
  - `NotificationDoc`: `relatedModel` is checked against the schema's model names but not stored; `metadata` and `actionUrl` are not modelled.
  - `PaymentStatsOf`: revenue totals, `refundedPayments`, `pendingRefunds`, revenue by month and popular payment methods of the payment statistics are not modelled; only the status counts and the success rate are.
  - `Sorting.InsertBy`: ties keep insertion order. JavaScript's `Array.prototype.sort` is stable too, but the order of equal-count tags in `getFavoriteTags` depends on `Object.entries` key order, which is not modelled.
- **Number and date semantics:**
  - `Common.PercentRate`: uses exact round-half-up integer arithmetic. IEEE doubles can differ at a half: a part of 29 in 200 gives 14 in the source and 15 here.
  - `Reviews.AverageTenths`: stores the mean in tenths, rounded half up. The source's `toFixed(1)` rounds the binary double.
  - `Number(...)` and `parseFloat` coercion of query and body strings is not modelled: prices and ratings arrive as optional integers after coercion.
  - For the filter routes a supplied price bound always constrains, as any non-empty query string (including "0") is truthy; an empty `?minPrice=`, which the source treats as absent, is not representable after `Number`.
  - Body fields tested for truthiness (the agent route's `price`, a review's `rating`) treat a numeric 0 as absent, as the source does; a string "0" sent in a JSON body, which the source finds truthy, is not represented.
  - Invalid dates, daylight-saving transitions, TTL expiry of notifications and `maxlength` validators are not modelled.
- **Authentication and ids:**
  - `Auth.Protect`: a token whose claims carry no role is not modelled; only a role string is.
  - `Auth.Protect`: an administrator record is taken to carry no `status` field (the admin schema, adminModel.js, is not part of this model), so `Auth.AgentGateAdmitsApprovedAgents` holds only under that assumption.
  - A malformed ObjectId that makes Mongoose throw `CastError` (500) is not modelled; ids are always well formed.
- **Request fields:**
  - `Users.LoginUser`: e-mail and password are always present strings. The source queries with whatever it receives, and an undefined e-mail is not modelled.
  - `UpdateApartmentStatus`: the availability is always a supplied boolean. An absent `availability` in the source assigns `undefined`, which unsets the field, so the listing then matches neither `availability: true` nor `availability: false` queries; that case is not modelled.
  - `Agents.UpdateBookingStatus`: the status is always a supplied string. The unset-field case is not modelled. No route in `backend/Routes/agentRoutes.js` reaches this handler.
- **Booking status "confirmed":** paymentController.js:66 writes `status = "confirmed"` and reviewController.js:35 queries it, but the enum at bookingmodel.js:16-19 does not list that value. The model follows the code for the as-written members and uses the corrected enum elsewhere (see Findings).

## Findings

| source | as written | input that shows it | evidently intended | confidence | as-written member | corrected member |
|---|---|---|---|---|---|---|
| backend/Models/bookingmodel.js:18 | the booking status enum lists pending, approved, rejected and cancelled but not "confirmed", so settlement's save of status "confirmed" (paymentController.js:66) fails validation inside the timer and the booking is never confirmed; the review gate (reviewController.js:32-42) requires a confirmed booking, so no non-admin can ever review | a user books apartment 0, pays for booking 1, settlement runs, then the user submits a review: 403 | the enum includes "confirmed", so settlement confirms the booking and the paying tenant may review | not executed; the rejected `Promise.all` inside the timer (paymentController.js:60-70) is also an unhandled rejection that may end the process, which no member models | Scenarios.ReviewAfterSettlementAsWritten | Scenarios.ReviewAfterSettlement |
