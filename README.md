# qa-moving-backend: a verified model of the request/quote lifecycle

The backend of a moving-service marketplace. Customers register a move (a *moving request*, the
`MovingInfo` record). Movers answer it with *estimates* (quotes), at most five per request.
A customer can also invite up to three movers through *designated requests*. The customer
confirms one quote and later reviews it. Around that lifecycle the backend keeps:

- favorite movers per customer;
- notifications with a read flag;
- each mover's profile with its service types and service areas;
- each account's refresh-token slot.

The Prisma database becomes an in-memory store:

- `Records.Db` is a value snapshot: id-keyed maps for every table, plus `nextId`, the next fresh id.
- `Records.Store` is the mutable class with the same tables as fields.
- Every persistence call of the handlers is a named function on `Db` (`NewEstimate`,
  `SetMovingInfo`, `DropServiceTypesOf`, ...). Each `Store` method is proved to move the snapshot
  by exactly that function.

Every HTTP handler is modelled in three parts:

- **A step function** `XStep(db, auth, ...)`. Its result is the reply and the new snapshot. It runs
  the handler's checks in source order, and the first one that fails picks the `Why` reason. Its
  contract states each error case, that a failed call changes nothing, when it succeeds, and what
  success does to the store.
- **Lemmas about the step function**: field-level effects (`XEffect`), the store invariant
  `Records.Consistent` kept by the step (`XConsistent`), and the lifecycle properties that relate
  several calls (`ConfirmOnce`, `ReviewOnce`, `OneOpenRequest`, `RefreshRotates`, ...).
- **A method** `X(s: Store, ...)`. It makes the record updates one by one on the store. It is proved
  to answer and to change the store exactly as the step function says.

The listing handlers (`moverEstimateList`, `confirmEstimateList`, `movingInfoList`, `reviewList`,
`customerReviewList`, `favoriteList`, `notifications`, `unreadNotificationsCount`, `moverList`)
change nothing. They are functions over the snapshot, with lemmas stating:

- what each row is;
- that the total counts exactly the matching records;
- that a page holds the right slice;
- that the page count is the ceiling of total over size.

Inputs the handlers get from outside are parameters:

- the decoded access token is `auth: Option<string>`, the e-mail of a verified token, with `None`
  when the Authorization header carries no token;
- `SERVICEABLE_AREAS` is a set;
- `Date.parse` and the current time are a function and an integer;
- `isEmail`, bcrypt's hashing and comparing, and the generated refresh token are functions or
  values supplied by the caller.

Modules and files:

- `Common` (`common.dfy`): replies, query parsing, selection, counting and paging.
- `Records` (`records.dfy`): the store and its invariant.
- `Estimates` (`estimate.dfy`), `MovingInfos` (`moving_info.dfy`), `Reviews` (`reviews.dfy`),
  `Favorites` (`favorites.dfy`), `Notifications` (`notifications.dfy`), `Movers` (`movers.dfy`)
  and `Auth` (`auth.dfy`): one module per controller.

Where the code and its description disagree, the model follows the code:

- `createEstimate` accepts any price, zero and negative included. It only checks that a price is
  given (`estimate.controller.js:46-48`).
- `confirmEstimate` never checks that the estimate belongs to the open request.
  `Estimates.ConfirmIgnoresRequest` shows a request ending up with two confirmed quotes.
- `createReview` looks the estimate up by id alone, and never checks that it is the caller's.
  `Reviews.ReviewAnyEstimate` shows a customer reviewing another customer's confirmed quote.
- `updateReview`, `deleteReview` and `favoriteDelete` look a record up by id alone, and never check
  whose record it is.
- `customerReviewList` applies no pagination: the rows are every selected estimate. Only
  `totalPage` uses `size`.
- `notification` (mark read) checks only that an access token is present. It never verifies the
  token or the owner.
- The type check of `sendNotification` is a property lookup on a JavaScript object. Inherited
  names such as `toString` pass it, and the insert then rejects them (`ServerError`).
- `createMovingInfo` with an account that has no Customer profile dereferences null, so it ends in
  a server error.
- Nothing ever clears `openMovingInfoId`.

## Model

| member | source | states |
|---|---|---|
| Common.ParseMovingType | prisma/controllers/movingInfo.controller.js:46-54 | the whitelist check accepts exactly "SMALL", "HOME" and "OFFICE" and returns the matching kind of move |
| Common.Numeric | prisma/controllers/estimate.controller.js:156-158 | `+q` after the default: an absent parameter takes the default, a number is itself, and anything else is NaN |
| Common.Window | prisma/controllers/estimate.controller.js:184-185 | `skip`/`take`: fails for a negative skip; otherwise at most `|take|` consecutive rows, from position `skip` on for a non-negative take, and for a negative take the rows just before the last `skip` ones |
| Common.NegativeTakeFromEnd | prisma/controllers/estimate.controller.js:184-185 | a negative `take` equals a positive one on the reversed list, reversed back: the rows are counted from the end |
| Common.PageCount | prisma/controllers/estimate.controller.js:202 | `Math.ceil(total / size)`: no number for a size of 0; for a positive size, the least number of pages of `size` that hold `total` rows; at most 0 for a negative size |
| Records.UserByEmail | prisma/controllers/auth.controller.js:51-55 | `findUnique({ email })`: the result has that email; it is None exactly when no account has it; with unique emails it is the only such account |
| Records.Caller | prisma/controllers/estimate.controller.js:8-28 | the common prelude: no token is Unauthorized, an unknown email is UserNotFound, and otherwise the id of that account |
| Estimates.CreateEstimateStep | prisma/controllers/estimate.controller.js:6-98 | the prelude, then the quote checks; a failure changes nothing |
| Estimates.QuoteAs | prisma/controllers/estimate.controller.js:30-91 | fails without a Mover profile, without `movingInfoId`, `price` or `comment`, for an unknown request, and at five quotes; otherwise one new estimate plus its request's count raised by one |
| Estimates.CreateEstimateConsistent | prisma/controllers/estimate.controller.js:72-91 | a quote keeps the store consistent, including `estimateCount <= 5` |
| Estimates.QuoteEffect | prisma/controllers/estimate.controller.js:72-91 | the new estimate is by the caller, for the request's customer, unconfirmed and unreviewed; that request's `estimateCount` grows by exactly one; nothing else changes |
| Estimates.CreateEstimate | prisma/controllers/estimate.controller.js:6-98 | the handler's record updates, applied to the store in order, answer and change the store as `CreateEstimateStep` |
| Estimates.ConfirmEstimateStep | prisma/controllers/estimate.controller.js:355-453 | the prelude, then the confirm checks; a failure changes nothing |
| Estimates.ConfirmAs | prisma/controllers/estimate.controller.js:379-446 | fails without a Customer profile, without an open request, when that request or the estimate is already confirmed, and for an unknown estimate; otherwise it flips both flags |
| Estimates.ConfirmEstimateConsistent | prisma/controllers/estimate.controller.js:429-446 | confirming keeps the store consistent |
| Estimates.ConfirmEffect | prisma/controllers/estimate.controller.js:429-446 | the open request becomes confirmed with the quote's mover as its mover, and the quote becomes confirmed; no other estimate and no customer changes |
| Estimates.ConfirmEstimate | prisma/controllers/estimate.controller.js:355-453 | the store method agrees with `ConfirmEstimateStep` |
| Estimates.ConfirmOnce | prisma/controllers/estimate.controller.js:389-427 | after one successful confirm, every later confirm by that customer fails with AlreadyConfirmed and changes nothing |
| Estimates.ConfirmIgnoresRequest | prisma/controllers/estimate.controller.js:379-427 | an estimate of another request can be confirmed: nothing ties the estimate to the open request |
| Estimates.CreateDesignatedEstimateStep | prisma/controllers/estimate.controller.js:535-635 | the prelude, then the invitation checks; a failure changes nothing |
| Estimates.DesignateAs | prisma/controllers/estimate.controller.js:561-628 | fails without a Customer profile or an open request, without `moverId` or for an unknown mover, when the request is confirmed and done, and at three invitations; otherwise one new designated request plus the count raised by one |
| Estimates.CreateDesignatedEstimateConsistent | prisma/controllers/estimate.controller.js:611-628 | an invitation keeps the store consistent, including `designatedCount <= 3` |
| Estimates.DesignateEffect | prisma/controllers/estimate.controller.js:611-628 | the new designated request links the customer, its open request and the mover; the request's `designatedCount` grows by exactly one; nothing else changes |
| Estimates.CreateDesignatedEstimate | prisma/controllers/estimate.controller.js:535-635 | the store method agrees with `CreateDesignatedEstimateStep` |
| Estimates.CapsAreFinal | prisma/controllers/estimate.controller.js:66-70 | in a consistent store, a request at its cap of five quotes refuses every further quote, whoever sends it, and its count stays at five |
| Estimates.DesignationCapIsFinal | prisma/controllers/estimate.controller.js:605-609 | in a consistent store, a request with three designated requests refuses every invitation by the customer holding it open, and no invitation changes its count |
| Estimates.MoverEstimateQuery | prisma/controllers/estimate.controller.js:133-158 | `orderBy` must be absent or "requestDesc"; an absent `movingType`, or one that parses to a value of length 0 (`[]`, `""`), means all three kinds; an array with any element outside the three is rejected; a parse error, `null` or another value makes the handler throw; `page` and `size` must be numeric |
| Estimates.SortByDate | prisma/controllers/estimate.controller.js:173-189 | `orderBy: { movingDate: "asc" }`: the result is sorted by moving date and is a permutation of the input |
| Estimates.DesignatedExactly | prisma/controllers/estimate.controller.js:205-221 | the designated flag is true exactly when a designated request of this mover names the request |
| Estimates.MatchCount | prisma/controllers/estimate.controller.js:191-200 | the `count` with the listing's filter equals the number of requests that pass it |
| Estimates.PageRows | prisma/controllers/estimate.controller.js:173-189 | a page holds consecutive listed requests, at most `|size|` of them, starting at position `skip` when the size is not negative |
| Estimates.ListedVisible | prisma/controllers/estimate.controller.js:160-189 | every listed request is in one of the mover's areas and has an asked-for type |
| Estimates.MoverEstimateList | prisma/controllers/estimate.controller.js:100-248 | every outcome: the caller's refusal, NotMover, the query's refusal, NoServiceableArea for a mover without areas, and otherwise exactly the page of the matching requests, with total and page count, that `RequestPage` gives |
| Estimates.MoverEstimatePaging | prisma/controllers/estimate.controller.js:184-202 | the total counts exactly the matching requests; the page skips `(page-1)*size` of them and holds at most `|size|`; the page count is `ceil(total/size)` |
| Estimates.MoverEstimateDesignated | prisma/controllers/estimate.controller.js:205-221 | each row's designated flag is set exactly when this mover was invited to that request |
| Estimates.MoverEstimateOrder | prisma/controllers/estimate.controller.js:173-182 | with "requestDesc" the newest request comes first, otherwise the earliest moving date |
| Estimates.ConfirmEstimateList | prisma/controllers/estimate.controller.js:455-533 | the prelude, numeric `page` (default 1) and `size` (default 8), a server error for a negative skip; it answers exactly when the caller is known, both numbers are numeric and the skip is not negative; the rows are the window at `(page-1)*size` of size `size` of the caller's confirmed estimates, keyed by customer when it has a Customer profile and by mover otherwise; the total is their count and the page count `ceil(total/size)` |
| Estimates.ConfirmEstimateListed | prisma/controllers/estimate.controller.js:493-509 | every listed estimate is confirmed and the caller's, in id order, at most `|size|` of them; the total counts all of them |
| Estimates.ConfirmEstimateComplete | prisma/controllers/estimate.controller.js:493-501 | nothing is left out: the first page, when its size is at least the total, lists every confirmed estimate of the caller |
| MovingInfos.CreateMovingInfoStep | prisma/controllers/movingInfo.controller.js:7-101 | the prelude, then the registration checks; a failure changes nothing |
| MovingInfos.RegisterAs | prisma/controllers/movingInfo.controller.js:30-97 | fails while a request is open, without a valid `movingType`, without `movingDate`, `startAddress` or `endAddress`, for an unparseable or past date; otherwise a new request which becomes the open one |
| MovingInfos.CreateMovingInfoConsistent | prisma/controllers/movingInfo.controller.js:80-97 | registering keeps the store consistent: the open request is the caller's own |
| MovingInfos.RegisterEffect | prisma/controllers/movingInfo.controller.js:80-97 | one new request of the caller with the given type, date and addresses, nothing quoted or confirmed, made the caller's open request; nothing else changes |
| MovingInfos.OneOpenRequest | prisma/controllers/movingInfo.controller.js:36-38 | after a successful registration the next one by the same caller fails with AlreadyOpen and changes nothing |
| MovingInfos.CreateMovingInfo | prisma/controllers/movingInfo.controller.js:7-101 | the store method agrees with `CreateMovingInfoStep` |
| MovingInfos.MovingInfoList | prisma/controllers/movingInfo.controller.js:103-186 | the prelude, a Customer profile and an open request, then the quotes of the chosen filter |
| MovingInfos.ReceivedAs | prisma/controllers/movingInfo.controller.js:126-158 | `filterBy` must be "estimate" or "pastEstimate"; `page` (default 0) and `size` (default 8) must be numeric; once every check passes, the reply is exactly `ReceivedPage` at skip `page*size` |
| MovingInfos.ReceivedPage | prisma/controllers/movingInfo.controller.js:152-185 | a negative skip is a server error, an empty window NoEstimates, and it answers exactly when the window at the skip is not empty; the rows are that window of the estimates on the open request (or on the customer's earlier requests) |
| MovingInfos.ReceivedListed | prisma/controllers/movingInfo.controller.js:152-185 | the page holds, in id order, the quotes on the open request or the caller's quotes on other requests, at most `|take|` of them, from `skip` on for a non-negative take |
| MovingInfos.ReceivedComplete | prisma/controllers/movingInfo.controller.js:152-185 | a first page at least as large as the matching quotes lists every one of them |
| Reviews.ReviewOf | prisma/controllers/review.controller.js:241-246 | `findFirst({ estimateId, customerId })`: None exactly when no such review exists |
| Reviews.CreateReviewStep | prisma/controllers/review.controller.js:187-277 | the prelude, then the review checks; a failure changes nothing |
| Reviews.ReviewAs | prisma/controllers/review.controller.js:211-270 | fails without a Customer profile, without `estimateId`, `rating` or `comment`, for an unknown or unconfirmed estimate, and for an existing review; otherwise one new review which the estimate points at |
| Reviews.CreateReviewConsistent | prisma/controllers/review.controller.js:252-270 | reviewing keeps at most one review per (estimate, customer) |
| Reviews.ReviewEffect | prisma/controllers/review.controller.js:252-270 | the review copies the request and the mover of the estimate; the estimate's `reviewId` is the new id; nothing else changes |
| Reviews.ReviewOnce | prisma/controllers/review.controller.js:241-250 | a second review of the same estimate by the same caller fails with AlreadyReviewed and changes nothing |
| Reviews.CreateReview | prisma/controllers/review.controller.js:187-277 | the store method agrees with `CreateReviewStep` |
| Reviews.UpdateReviewStep | prisma/controllers/review.controller.js:279-350 | the prelude, then the edit checks; a failure changes nothing |
| Reviews.EditAs | prisma/controllers/review.controller.js:303-343 | fails without a Customer profile, without `reviewId`, `rating` or `comment`, and for an unknown review; otherwise it rewrites rating and comment |
| Reviews.UpdateReviewConsistent | prisma/controllers/review.controller.js:335-343 | an edit keeps the store consistent |
| Reviews.EditEffect | prisma/controllers/review.controller.js:335-343 | only the rating and comment of that review change |
| Reviews.ReviewAnyEstimate | prisma/controllers/review.controller.js:227-239 | any customer can review another customer's confirmed estimate |
| Reviews.EditAnyReview | prisma/controllers/review.controller.js:319-343 | any customer can edit any review, another customer's included |
| Reviews.UpdateReview | prisma/controllers/review.controller.js:279-350 | the store method agrees with `UpdateReviewStep` |
| Reviews.DeleteReviewStep | prisma/controllers/review.controller.js:352-413 | the prelude, then the delete checks; a failure changes nothing |
| Reviews.DeleteAs | prisma/controllers/review.controller.js:376-406 | fails without a Customer profile, without `reviewId`, and for an unknown review; otherwise it removes that review |
| Reviews.DeleteReviewConsistent | prisma/controllers/review.controller.js:402-406 | a deletion keeps the store consistent |
| Reviews.DeleteEffect | prisma/controllers/review.controller.js:402-406 | exactly that review is gone, and the estimate still holds its `reviewId` |
| Reviews.ReviewAgainAfterDelete | prisma/controllers/review.controller.js:241-250 | after its review is deleted, the estimate can be reviewed again by the same customer |
| Reviews.DeleteReview | prisma/controllers/review.controller.js:352-413 | the store method agrees with `DeleteReviewStep` |
| Reviews.ReviewListQuery | prisma/controllers/review.controller.js:8-30 | `moverId` must be given and a mover; `page` (default 1) and `size` (default 5) must be numeric |
| Reviews.ReviewListAsWritten | prisma/controllers/review.controller.js:32-46 | the listing as written answers exactly when the corrected one does, refuses alike, and differs from it only in `totalPage`, computed from the fetched page's length |
| Reviews.ReviewListAsWrittenPages | prisma/controllers/review.controller.js:46 | as written, the page count is 0 or 1, and it is wrong for a mover with more than `size` reviews |
| Reviews.ReviewList | prisma/controllers/review.controller.js:6-58 | the corrected listing: `totalPage = ceil(totalElement / size)` |
| Reviews.ReviewListed | prisma/controllers/review.controller.js:32-46 | the page holds, in id order, at most `|size|` of the mover's reviews; the total counts all of them; the page count is the least number of pages that hold them |
| Reviews.CustomerReviewQuery | prisma/controllers/review.controller.js:84-106 | a Customer profile, numeric `page` (default 1) and `size` (default 6), and `filterBy` "pendingReview" or "myReview" |
| Reviews.RowsOf | prisma/controllers/review.controller.js:127-172 | one row per selected estimate, in the same order |
| Reviews.CustomerReviewListAsWritten | prisma/controllers/review.controller.js:127-138 | as written, the handler reads the `moverId` of a null designated request when the quote was not invited, and answers with a server error |
| Reviews.CustomerReviewListAgrees | prisma/controllers/review.controller.js:60-138 | the listing as written refuses the same queries as the corrected one, gives the same reply when every selected quote has a designated request, and a server error otherwise |
| Reviews.CustomerReviewListCrashes | prisma/controllers/review.controller.js:137-138 | a single selected estimate without a designated request makes the listing as written fail, where the corrected one answers |
| Reviews.CustomerReviewList | prisma/controllers/review.controller.js:60-185 | the corrected listing, designated exactly when the designated request exists |
| Reviews.RowMeaning | prisma/controllers/review.controller.js:127-172 | a row carries the estimate's mover, the designated flag, and for "myReview" the customer's review of the estimate |
| Reviews.CustomerReviewListed | prisma/controllers/review.controller.js:108-125 | the rows are exactly the customer's estimates without a review or with one, in id order; the total counts them |
| Favorites.FavoriteOf | prisma/controllers/favorite.controller.js:62-67 | `findFirst({ customerId, moverId })`: None exactly when the pair is absent |
| Favorites.FavoriteStep | prisma/controllers/favorite.controller.js:6-85 | the prelude, then the favorite checks; a failure changes nothing |
| Favorites.FavorAs | prisma/controllers/favorite.controller.js:30-78 | fails unless the account is a customer with a Customer profile, `moverId` is given and the mover exists, and when the pair exists; otherwise one new favorite |
| Favorites.FavoriteConsistent | prisma/controllers/favorite.controller.js:62-78 | (customer, mover) pairs stay unique |
| Favorites.FavorEffect | prisma/controllers/favorite.controller.js:73-78 | exactly one new row, the (caller, mover) pair; nothing else changes |
| Favorites.FavoriteOnce | prisma/controllers/favorite.controller.js:62-71 | a second favorite of the same mover by the same caller fails with AlreadyFavorite and changes nothing |
| Favorites.Favor | prisma/controllers/favorite.controller.js:6-85 | the store method agrees with `FavoriteStep` |
| Favorites.FavoriteDeleteStep | prisma/controllers/favorite.controller.js:235-296 | the prelude, then the delete checks; a failure changes nothing |
| Favorites.UnfavorAs | prisma/controllers/favorite.controller.js:259-289 | fails without a Customer profile, without `favoriteId`, and for an unknown favorite; otherwise it removes that favorite |
| Favorites.FavoriteDeleteConsistent | prisma/controllers/favorite.controller.js:281-289 | a removal keeps the store consistent |
| Favorites.UnfavorEffect | prisma/controllers/favorite.controller.js:281-289 | exactly that favorite is gone, whoever it belongs to; nothing else changes |
| Favorites.FavoriteAgain | prisma/controllers/favorite.controller.js:62-78 | after removing its favorite of a mover, the customer can mark that mover again |
| Favorites.Unfavor | prisma/controllers/favorite.controller.js:235-296 | the store method agrees with `FavoriteDeleteStep` |
| Favorites.FavoriteList | prisma/controllers/favorite.controller.js:87-233 | a Customer profile, numeric `page` and `size`; it answers exactly when these hold and the skip is not negative (a server error otherwise); the rows are the window of the favored movers whose name contains `moverName`, with total and page count |
| Favorites.FavoredByMeans | prisma/controllers/favorite.controller.js:129-135 | a mover is favored exactly when the customer has a favorite row for it |
| Favorites.FavoriteListed | prisma/controllers/favorite.controller.js:137-164 | each listed mover is favored by the caller and its name contains the filter |
| Favorites.FavoriteCounted | prisma/controllers/favorite.controller.js:166-179 | the total counts exactly the favored movers whose name contains the filter |
| Favorites.FavoriteListUnfiltered | prisma/controllers/favorite.controller.js:121 | the default filter "" keeps every favored mover |
| Notifications.Label | prisma/controllers/notifications.controller.js:9-19 | lower-case "small", "home" and "office" get their own labels, and every other value gets the generic one |
| Notifications.MessageFor | prisma/controllers/notifications.controller.js:7-26 | CONFIRMED and MOVINGDAY have fixed messages; ESTIMATE is built from the template |
| Notifications.UpperCaseIsGeneric | prisma/controllers/notifications.controller.js:9-19 | "SMALL" gets the same message as an unknown kind, and a different one from "small" |
| Notifications.EstimateMessageShape | prisma/controllers/notifications.controller.js:9-19 | an ESTIMATE message starts with the mover's name and ends with the fixed tail; two messages for one mover are equal exactly when the labels are |
| Notifications.ParseNotificationType | prisma/controllers/notifications.controller.js:7-26 | the configured types are exactly ESTIMATE, CONFIRMED and MOVINGDAY |
| Notifications.SendNotificationStep | prisma/controllers/notifications.controller.js:61-101 | fails without `userId` or `notificationType`, for an unknown type, and for ESTIMATE without `moverName` or `movingType`; otherwise one new unread notification with the type's message |
| Notifications.SendNotificationConsistent | prisma/controllers/notifications.controller.js:88-100 | sending keeps the store consistent |
| Notifications.SendEffect | prisma/controllers/notifications.controller.js:83-100 | one new unread row for the user with the type and its message; nothing else changes |
| Notifications.InheritedTypeFails | prisma/controllers/notifications.controller.js:73-95 | an inherited property name passes the type check, and the insert rejects it |
| Notifications.SendNotification | prisma/controllers/notifications.controller.js:61-101 | the store method agrees with `SendNotificationStep` |
| Notifications.NotificationList | prisma/controllers/notifications.controller.js:103-140 | no token is Unauthorized, an unknown caller a server error; it answers exactly when the caller is known, with the caller's notifications in id order |
| Notifications.NotificationListed | prisma/controllers/notifications.controller.js:123-134 | "unRead" lists exactly the unread ones, "read" exactly the read ones, and anything else all of the caller's |
| Notifications.UnreadCount | prisma/controllers/notifications.controller.js:181-212 | it answers exactly when the caller is known, with the number of the caller's notifications with `isRead` false |
| Notifications.UnreadCountMatchesList | prisma/controllers/notifications.controller.js:194-206 | the unread count is the length of the "unRead" listing |
| Notifications.MarkReadStep | prisma/controllers/notifications.controller.js:142-179 | fails without a token, without `notificationId` and for an unknown id; otherwise that notification is marked read |
| Notifications.MarkReadConsistent | prisma/controllers/notifications.controller.js:165-173 | marking keeps the store consistent |
| Notifications.MarkReadEffect | prisma/controllers/notifications.controller.js:165-173 | only `isRead` of that notification changes, and marking again changes nothing |
| Notifications.MarkedLeavesUnread | prisma/controllers/notifications.controller.js:165-173 | a notification marked read leaves its owner's "unRead" listing |
| Notifications.MarkRead | prisma/controllers/notifications.controller.js:142-179 | the store method agrees with `MarkReadStep` |
| Movers.MoverListQuery | prisma/controllers/mover.controller.js:19-57 | `page`/`size` numeric; `orderBy` absent or ratingDesc, careerDesc or confirmCountDesc; a non-empty `movingArea` is an array within the serviceable areas; a given `movingType` parses; each failure has its reason |
| Movers.MoverList | prisma/controllers/mover.controller.js:8-183 | a page of the matching movers, their total and `ceil(total/size)` |
| Movers.MoverListed | prisma/controllers/mover.controller.js:59-107 | each listed mover passes every filter that was supplied: name contains, area overlap, type membership |
| Movers.MatchCount | prisma/controllers/mover.controller.js:109-137 | the total counts exactly the movers that pass the combined filter |
| Movers.MoverListUnfiltered | prisma/controllers/mover.controller.js:59-85 | with no filter supplied every mover matches |
| Movers.NameFilterNarrows | prisma/controllers/mover.controller.js:62-68 | adding a name filter never raises the total |
| Movers.TypeFilterNarrows | prisma/controllers/mover.controller.js:78-84 | adding a type filter never raises the total |
| Movers.UpdateMoverInfoStep | prisma/controllers/mover.controller.js:185-242 | the prelude, then the info checks; a failure changes nothing |
| Movers.InfoAs | prisma/controllers/mover.controller.js:209-235 | fails unless the account is a mover and `name`, `phoneNumber` and `password` are given; otherwise it stores them, the password hashed |
| Movers.UpdateMoverInfoConsistent | prisma/controllers/mover.controller.js:225-235 | the update keeps the store consistent |
| Movers.InfoEffect | prisma/controllers/mover.controller.js:223-235 | only the name, phone number and password hash of that account change |
| Movers.UpdateMoverInfo | prisma/controllers/mover.controller.js:185-242 | the store method agrees with `UpdateMoverInfoStep` |
| Movers.ParsedTypes | prisma/controllers/mover.controller.js:302-308 | the parsed kinds carry, one for one, the names given |
| Movers.UpdateMoverProfileStep | prisma/controllers/mover.controller.js:244-397 | the prelude, then the profile checks; a failure changes nothing |
| Movers.ProfileAs | prisma/controllers/mover.controller.js:268-390 | fails unless the account is a mover and all five fields are given; `serviceType` must be an array within the three kinds, `serviceableArea` an array within the serviceable areas, and the mover must exist; otherwise the profile is rewritten |
| Movers.ProfileRejects | prisma/controllers/mover.controller.js:283-334 | the reason for each failed check of the profile body |
| Movers.AddTypesRows | prisma/controllers/mover.controller.js:370-379 | creating the type rows appends the supplied list to that mover's types and touches no other mover |
| Movers.AddAreasRows | prisma/controllers/mover.controller.js:381-390 | creating the area rows appends the supplied list to that mover's areas and touches no other mover |
| Movers.ClearedRows | prisma/controllers/mover.controller.js:336-346 | the deletions leave the mover with no type and no area rows, and other movers' rows untouched |
| Movers.RefilledRows | prisma/controllers/mover.controller.js:336-390 | after the rewrite, the mover's types and areas are exactly the supplied lists; every other mover's are unchanged |
| Movers.RefilledProfile | prisma/controllers/mover.controller.js:348-368 | the mover's profile fields are the supplied ones; `profileImageUrl` changes only when one is supplied |
| Movers.UpdateMoverProfileConsistent | prisma/controllers/mover.controller.js:336-390 | the profile update keeps the store consistent |
| Movers.ProfileEffect | prisma/controllers/mover.controller.js:336-390 | after a successful update the types and areas are the body's lists, the old rows are gone, other movers are unchanged, and the image URL changes only when given |
| Movers.UpdateMoverProfile | prisma/controllers/mover.controller.js:244-397 | the store method agrees with `UpdateMoverProfileStep` |
| Movers.UpdateProfileAs | prisma/controllers/mover.controller.js:268-390 | the checks and writes on the store agree with `ProfileAs` |
| Movers.Refill | prisma/controllers/mover.controller.js:336-390 | the deletions, the profile update and the two creation loops leave the store as `Refilled` |
| Auth.ParseUserType | prisma/controllers/auth.controller.js:19-24 | the account type is exactly "CUSTOMER" or "MOVER" |
| Auth.SignupStep | prisma/controllers/auth.controller.js:12-46 | fails unless all five fields are given, the type is CUSTOMER or MOVER and the email is well formed, and when the email is in use; otherwise one new account |
| Auth.SignupConsistent | prisma/controllers/auth.controller.js:35-43 | signing up keeps emails unique |
| Auth.SignupEffect | prisma/controllers/auth.controller.js:35-43 | the new account has the given fields and the hashed password, with no refresh token; nothing else changes |
| Auth.SignupOnce | prisma/controllers/auth.controller.js:35-43 | a second signup with the same email fails and changes nothing |
| Auth.Signup | prisma/controllers/auth.controller.js:12-46 | the store method agrees with `SignupStep` |
| Auth.SigninStep | prisma/controllers/auth.controller.js:48-87 | fails for an unknown email and a password mismatch; otherwise it stores the new refresh token and returns it |
| Auth.SigninConsistent | prisma/controllers/auth.controller.js:77-84 | signing in keeps the store consistent |
| Auth.SigninEffect | prisma/controllers/auth.controller.js:77-84 | only that account's refresh token changes, to the new one |
| Auth.SignupThenSignin | prisma/controllers/auth.controller.js:32-84 | an account just signed up can sign in with its password |
| Auth.Signin | prisma/controllers/auth.controller.js:48-87 | the store method agrees with `SigninStep` |
| Auth.SignoutStep | prisma/controllers/auth.controller.js:89-122 | fails without a valid token or account; otherwise it clears that account's refresh token |
| Auth.SignoutConsistent | prisma/controllers/auth.controller.js:112-119 | signing out keeps the store consistent |
| Auth.SignoutEffect | prisma/controllers/auth.controller.js:112-119 | only that account's refresh token changes, to null |
| Auth.Signout | prisma/controllers/auth.controller.js:89-122 | the store method agrees with `SignoutStep` |
| Auth.RefreshAsWritten | prisma/controllers/auth.controller.js:124-165 | as written, the sent value is compared with `!==`, so a `null` token matches an empty slot |
| Auth.RefreshAfterSignoutAsWritten | prisma/controllers/auth.controller.js:139 | as written, after a signout, sending `null` issues a new refresh token |
| Auth.RefreshStep | prisma/controllers/auth.controller.js:124-165 | the corrected refresh succeeds exactly when a token is sent and equals the stored one; it then rotates the stored token, and a failure changes nothing |
| Auth.RefreshAgrees | prisma/controllers/auth.controller.js:139 | the corrected and the written refresh agree whenever a token is sent or the account holds one |
| Auth.RefreshConsistent | prisma/controllers/auth.controller.js:155-162 | refreshing keeps the store consistent |
| Auth.NoRefreshAfterSignout | prisma/controllers/auth.controller.js:112-119 | after a signout, every refresh fails with TokenMismatch |
| Auth.RefreshRotates | prisma/controllers/auth.controller.js:139-162 | after a refresh, the used token fails and the new one succeeds |
| Auth.Refresh | prisma/controllers/auth.controller.js:124-165 | the store method agrees with the corrected `RefreshStep` |

## Left out

- OAuth sign-in (`oauth.controller.js`): calls to external providers.
- Signing and verifying tokens: the decoded email is a parameter.
- Bcrypt: hashing is a `hash` function and comparing a `matches` function. A salted hash is not a
  function of the password, so `SignupThenSignin` assumes `matches(p, hash(p))`.
- Image upload, Express routing, `user.controller.js` and the daily `cron` sweep
  (`notifications.controller.js:28-59`): outside the modelled core.
- `detailEstimate` (`estimate.controller.js:250-353`): a read-only detail view whose substance is a
  floating-point average rating. The averages and `toFixed(1)` in `favoriteList` are left out for
  the same reason.
- Movers.MoverList: the rows stay in id order. The `orderBy` sort by rating, career or confirmed
  count is not modelled, because rating is an average over reviews and career is free text.
- Movers.MoverList and Favorites.FavoriteList: the per-row counts and profile fields are not
  modelled. The rows are mover ids.
- Response shaping beyond ids, flags and counts: names, image URLs, dates and messages of the
  JSON replies.
- HTTP status codes: only the reason of each refusal is modelled.
- Concurrency: each handler is one atomic step, and the `Promise.all` calls run in list order.
  This includes the row creation of `updateMoverProfile`, so the order of the new rows is the
  body's order.
- Prisma's `contains`: modelled as the plain substring predicate `Common.Contains`, case-sensitive.
- Real dates: they are integers, `Date.parse` is a parameter, and the current time is an integer.
- Unhandled rejections are modelled as a `ServerError` reply that changes nothing. In the source,
  such a request is left without a reply. This covers signup with an email in use, and signin or
  refresh with an absent email or password.
- Records.Caller: an invalid or expired token makes `jwt.verify` throw, and the source answers
  with a server error or leaves the request unanswered. The handlers that read the header without
  `?.` do the same when the Authorization header is absent. The model has no such input: `auth` is
  a verified e-mail or `None`, and `None` is refused as Unauthorized.
- Common.Numeric: a query number is an integer, so a fractional or infinite `+page` or `+size` is
  not modelled. With `page=1.5&size=8` the source skips 4 rows and reports `currentPage` 1.5; with
  `size=2.5` Prisma rejects the `take`. This concerns every listing that reads `page` and `size`.
- Reviews.CustomerReviewList: the mover account of each estimate is assumed to exist. Only the
  designated-request lookup that can be missing is modelled.
- Ids: the model's ids are numbers given in creation order (`nextId`). In the source some ids
  arrive as strings from the request (`review.controller.js:319-321`, `favorite.controller.js:275-277`).
  Where a `findMany` has no `orderBy`, the model takes the rows in id order. This concerns
  Reviews.ReviewListed, Estimates.ConfirmEstimateListed, MovingInfos.ReceivedListed,
  Reviews.CustomerReviewListed and Notifications.NotificationListed.
- Reviews.ReviewListed: the corrected page count is stated for a positive size only. A size of 0,
  where `Math.ceil` gives Infinity or NaN, leaves the page count empty.

## Findings

| source | as written | input that shows it | evidently intended | confidence | as-written member | corrected member |
|---|---|---|---|---|---|---|
| prisma/controllers/review.controller.js:46 | `totalPage = Math.ceil(reviews.length / size)` uses the length of the fetched page | a mover with 6 reviews, `page=1`, `size=5`: the page count is 1 where 2 pages exist | `Math.ceil(totalElements / size)`, as in every other listing | not executed | Reviews.ReviewListAsWrittenPages | Reviews.ReviewListed |
| prisma/controllers/review.controller.js:129-138 | `designatedEstimateRequest.moverId` is read although `findFirst` returns null for a quote the mover was never invited to | a quote from an uninvited mover, with a review for `myReview` or without one for `pendingReview`: the listing fails with a server error | `isDesignated` false when no designated request exists | not executed | Reviews.CustomerReviewListCrashes | Reviews.CustomerReviewListed |
| prisma/controllers/auth.controller.js:139 | `refreshToken !== requestRefreshToken` lets a `null` token match an empty slot | after signout (or before any signin), a refresh with `refreshToken: null` issues a new token pair | a refresh succeeds only with the stored, non-null token | not executed | Auth.RefreshAfterSignoutAsWritten | Auth.NoRefreshAfterSignout |
