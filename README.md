# ronotbroyt.xyz in Dafny

The model covers the decision logic of a personal site built with Next.js. The site has a forum with comments, a blog with an admin-only editor, a few seasonal Christmas widgets, and a handful of JSON route handlers over a relational store.

The model is in four groups.

- **Route handlers** are pure functions from a request to an outcome. The request is the caller's identity, the body (which may not parse) and the outcome of each store or service call. The outcome is a status, a body and the new store. The handlers modelled are comments, blog-posts, save-post, events, upload and youtube-videos.
- **Client components** become classes whose methods update the component's state step by step. These are the comment section, the blog editor, the gift-wrapping game, the countdown card, the Santa tracker and the map.
  - Every `fetch` reply becomes a `Server.Fetched` parameter: a network error, or a status with a body that may not parse.
  - The delete-control predicates and the views are functions.
- **Seasonal arithmetic** uses integer milliseconds:
  - the choice of which Christmas to count down to;
  - the split into days, hours, minutes and seconds, with JavaScript's `%` and `Math.floor` written out;
  - two-digit padding, with a read-back proof;
  - Santa's current stop and next stop, and the marker colours.
- **Store client setup**: the cache connection's retry backoff, and reuse of the global client.

Shared modules:
- `Wrappers`: `Option`.
- `Seqs`: `find`, `filter`, and `orderBy` as a sorted permutation.
- `SharedTypes`: `Role` = USER | ADMIN | MOD, plus the record shapes.
- `Server`: responses, JSON bodies, store inserts, client fetches and status codes.
- `Client`: form status, router, and the display fallbacks.
- `DeleteRights`: the delete-control rule that the three components share.
- `Countdown`: the countdown arithmetic.

Some behaviour of the modelled code is easy to overlook:
- The comment section screens a new comment for profanity on the client: one call, on the comment's text only. The comments route itself scores nothing.
- The save-post route creates a post without consulting any identity. Its author is whatever id the body names.
- The blog-post route has no role check (see Findings).
- The delete controls in the comment section, the forum post and the blog post are decided by the role of the author's record. A MOD record grants nothing.

## Model

| member | source | states |
|---|---|---|
| Seqs.FindFirst | components/christmas.tsx:212-218 | `find`: the index of the first element that satisfies the predicate, with no earlier match; None exactly when nothing matches |
| Seqs.Filter | app/api/comments/route.ts:17-18 | `filter`: every kept element comes from the input and passes the predicate, every passing input element is kept, and nothing is added |
| Seqs.FilterConcat | components/CommentSection.tsx:144 | filtering distributes over concatenation, so kept elements keep their relative order |
| Seqs.InsertBy | app/api/events/route.ts:48-51 | inserting into a key-ordered sequence keeps it ordered and adds exactly that element |
| Seqs.SortBy | app/api/events/route.ts:48-51 | `orderBy`: the result is ordered by the key and is a permutation of the input |
| Seqs.SortByMembers | app/api/comments/route.ts:17-20 | the ordered result has exactly the input's elements |
| Client.DisplayName | components/PostContent.tsx:71 | the shown name is the record's username when it is non-empty, otherwise 'Unknown User'; it is never empty |
| Client.AvatarSource | components/PostContent.tsx:62 | the avatar source is the record's image URL when present and non-empty, otherwise "" |
| Client.Router.Push | components/PostContent.tsx:39 | `router.push` appends the path to the history |
| DeleteRights.AuthorRoleRuleCases | components/CommentSection.tsx:210 | the shared rule as written: never signed out; always for the author; for anyone else exactly when the shown record is ADMIN; a MOD record grants nothing |
| DeleteRights.RulesAgreeOnOwnRecord | components/PostContent.tsx:28-29 | when the shown record is the viewer's own, the rule as written agrees with the intended rule for posts; it agrees with the intended rule for comments unless the viewer is a MOD |
| DeleteRights.ViewerRoleRuleCases | components/CommentSection.tsx:210 | intended rule: a viewer without a privileged role may delete exactly their own items, and a privileged viewer may delete any. Only ADMIN is privileged for posts and blog posts; ADMIN and MOD are privileged for comments, as the delete routes accept (the comment delete route, app/api/comments/[id]/route.ts, accepts ADMIN and MOD) |
| DeleteRights.AuthorRoleRuleMisgrants | components/PostContent.tsx:28-29 | concrete records: a USER viewer gets the control on an admin's item; an ADMIN viewer does not get it on a user's post; a MOD viewer does not get it on a user's comment |
| CommentSection.ScoreAsNumber | components/CommentSection.tsx:73 | JavaScript's conversion of the score for `<` and `>=`: `null` becomes 0, a missing score is NaN, a number stays itself |
| CommentSection.ProfanityPassesCases | components/CommentSection.tsx:67-77 | as written, a check passes ⇔ the reply is OK, its body parses, and the score is a number below 1 or is `null` |
| CommentSection.NullScorePasses | components/CommentSection.tsx:73 | an OK reply `{"score": null}` passes the check as written and fails the intended one |
| CommentSection.ProfanityFailsClosed | components/CommentSection.tsx:67-77 | intended check: a network error, a non-OK status, an unparsable body, a missing or `null` score, or a score ≥ 1 each refuse; it passes ⇔ the as-written check passes and the score is not `null` |
| CommentSection.ProfanityStatusAfter | components/CommentSection.tsx:71-76 | the recorded status is the parsed body on an OK reply; otherwise it is the fixed 'Failed to check profanity' error, and the check refused |
| CommentSection.AlertOnlyOnRefusal | components/CommentSection.tsx:194-201 | the high-score alert appears only after a refused check, and never after a non-OK reply; a `null` score never shows it |
| CommentSection.CommenterRow | components/CommentSection.tsx:120-125 | the prepended record has the commenter's id and image, role USER, and the username or 'Unknown User' |
| CommentSection.ShownRow | components/CommentSection.tsx:209 | the record shown for comment i is the record at index i, when there is one |
| CommentSection.ShownName | components/CommentSection.tsx:220 | the name shown for comment i is the username at index i, or 'Unknown User' |
| CommentSection.CanDelete | components/CommentSection.tsx:210 | canDelete(i) ⇔ signed in and (the viewer wrote comment i, or the record at index i is ADMIN) |
| CommentSection.DeleteAsWritten | components/CommentSection.tsx:144 | the as-written delete leaves the records untouched; it keeps exactly the comments with another id, and none with the deleted id |
| CommentSection.DeleteAsWrittenMisaligns | components/CommentSection.tsx:144 | concrete lists on which the delete leaves a comment shown with another author's name and ADMIN record, so a third user can delete it |
| CommentSection.DeleteAligned | components/CommentSection.tsx:144 | intended delete: the two lists stay the same length |
| CommentSection.DeleteAlignedKeepsSameComments | components/CommentSection.tsx:144 | the intended delete keeps exactly the comments the as-written one keeps, in order |
| CommentSection.DeleteAlignedPreservesAlignment | components/CommentSection.tsx:209 | the intended delete keeps every comment paired with its own author's record |
| CommentSection.CommentSectionState.constructor | components/CommentSection.tsx:44-48 | the initial lists are the props; no status, no profanity result, not checking |
| CommentSection.CommentSectionState.SetContent | components/CommentSection.tsx:164 | the editor sets the form's content and nothing else |
| CommentSection.CommentSectionState.CheckProfanity | components/CommentSection.tsx:58-81 | one request; the verdict is the as-written `ProfanityPasses`, so a `null` score passes (see Findings); the recorded status is `ProfanityStatusAfter`; checking ends false; the lists are unchanged |
| CommentSection.CommentSectionState.OnSubmit | components/CommentSection.tsx:83-133 | see the note on OnSubmit after this table |
| CommentSection.CommentSectionState.SubmitForm | components/CommentSection.tsx:17-19 | content under 20 characters gets the schema message, sends no request and changes no other state. Valid content clears the error, then has exactly the effects of `OnSubmit` on the form's content, including both lists and the alignment they keep |
| CommentSection.CommentSectionState.HandleDeleteComment | components/CommentSection.tsx:135-150 | one DELETE. On OK, comments becomes the as-written filter and the status is success. Otherwise comments are unchanged and the status is an error. The records, the profanity state and the form are never touched |
| CommentSection.CommentSectionState.HandleDeleteCommentAligned | components/CommentSection.tsx:135-150 | intended delete: on OK, both lists become `DeleteAligned` of the old lists. Otherwise both are unchanged and the status is an error. The profanity state and the form are never touched |
| PostContent.CanDelete | components/PostContent.tsx:28-29 | false when signed out; true for the author; true for any viewer when the author record is ADMIN; otherwise false, so MOD grants nothing |
| PostContent.HandleDeletePost | components/PostContent.tsx:31-44 | DELETE /api/posts/{id}; the router pushes /forum on an OK reply only |
| PostContent.Render | components/PostContent.tsx:46-103 | the delete control is shown ⇔ CanDelete; also the title, the author name with its fallback, the avatar source, and the comment count |
| BlogPostContent.CanDelete | components/BlogPostContent.tsx:22 | false without a post; with one, signed in and (the viewer is the author or the author record is ADMIN) |
| BlogPostContent.HandleDeletePost | components/BlogPostContent.tsx:24-37 | without a post: no request and no navigation. Otherwise DELETE /api/blogposts/{id}, and /forum only on an OK reply |
| BlogPostContent.DisplayTitle | components/BlogPostContent.tsx:51 | a missing or empty title shows as 'Untitled'; the shown title is never empty |
| BlogPostContent.Render | components/BlogPostContent.tsx:39-71 | without a post, only the loading text is shown. With one, the article: title fallback, delete control ⇔ CanDelete, author name, avatar, content |
| CreateBlogPost.CaughtMessage | components/createblogpost.tsx:113 | `error.message` or the retry text; never empty |
| CreateBlogPost.SubmitOutcome | components/createblogpost.tsx:93-114 | success ⇔ OK. 403 gives the permission message. Another status gives the server's error text or 'Failed to save blog post'. An error is never empty |
| CreateBlogPost.BlogPostEditor.constructor | components/createblogpost.tsx:42-45 | loading, not admin, empty title, placeholder document, spinner view |
| CreateBlogPost.BlogPostEditor.View | components/createblogpost.tsx:130-155 | the editor is shown ⇔ loaded and admin; access is denied ⇔ loaded and not admin |
| CreateBlogPost.BlogPostEditor.CheckAdminStatus | components/createblogpost.tsx:47-72 | see the note on CheckAdminStatus after this table |
| CreateBlogPost.BlogPostEditor.SetTitle | components/createblogpost.tsx:165 | the title input sets the title and nothing else |
| CreateBlogPost.BlogPostEditor.ClearEditor | components/createblogpost.tsx:120-128 | the title becomes "" and the document becomes the placeholder paragraph |
| CreateBlogPost.BlogPostEditor.HandleSubmit | components/createblogpost.tsx:74-118 | see the note on HandleSubmit after this table |
| CommentsRoute.AuthorData | app/api/comments/route.ts:27-39 | the entry's id is the comment's userId. It takes the user row's fields when the row exists, else null username, null image and role USER |
| CommentsRoute.NewestFirst | app/api/comments/route.ts:16-21 | the listing is a permutation of the post's comments with createdAt non-increasing |
| CommentsRoute.NewestFirstMembers | app/api/comments/route.ts:16-21 | a comment is listed ⇔ it is stored with that postId |
| CommentsRoute.HandleGet | app/api/comments/route.ts:8-51 | see the note on CommentsRoute.HandleGet after this table |
| CommentsRoute.HandlePost | app/api/comments/route.ts:53-85 | see the note on CommentsRoute.HandlePost after this table |
| CommentsRoute.BodyUserIdIgnored | app/api/comments/route.ts:60-75 | a `userId` in the body never changes the outcome |
| CommentsRoute.UnauthenticatedIgnoresBody | app/api/comments/route.ts:54-57 | without an identity, every body gets the same 401 |
| BlogPostsRoute.HandlePost | app/api/blog-posts/route.ts:6-31 | see the note on BlogPostsRoute.HandlePost after this table |
| BlogPostsRoute.MalformedBeforeUnauthorized | app/api/blog-posts/route.ts:8-13 | a malformed body is answered 500 even without an identity |
| BlogPostsRoute.NeverForbidden | app/api/blog-posts/route.ts:10-23 | as written, the route never answers 403 |
| BlogPostsRoute.HandlePostAdminOnly | app/api/blog-posts/route.ts:10-21 | intended: a store change implies an ADMIN caller. An authenticated non-admin with a parsed body gets 403 and nothing is stored. An admin gets the as-written outcome |
| BlogPostsRoute.PlainUserCreatesBlogPost | app/api/blog-posts/route.ts:10-23 | concrete: a USER caller gets 200 and a stored post as written, and 403 with nothing stored from the intended route |
| SavePostRoute.HandlePost | app/api/save-post/route.ts:6-23 | a malformed body or a failed insert gives 500 'Error saving post'. Otherwise 200, with the new id and the fields stored as sent. The status is always 200 or 500 |
| SavePostRoute.AuthorIsWhateverTheBodyClaims | app/api/save-post/route.ts:8-16 | the stored author is the id the body claims, with no identity check |
| EventsRoute.HandlePost | app/api/events/route.ts:5-41 | 401 comes first. A malformed body gives 500; any falsy field gives 400. A complete body gives 201 with the event built from the body and the parsed date, stored; a failing insert or an unparsable date gives 500 'Failed to create event'. The store changes ⇔ the status is 201 |
| EventsRoute.AnySignedInUserCreates | app/api/events/route.ts:5-33 | any authenticated caller with a complete body and a working store gets 201; no role is consulted |
| EventsRoute.HandleGet | app/api/events/route.ts:43-68 | see the note on EventsRoute.HandleGet after this table |
| UploadRoute.HandlePost | app/api/upload/route.ts:4-35 | see the note on UploadRoute.HandlePost after this table |
| UploadRoute.FilenameCheckedFirst | app/api/upload/route.ts:8-20 | with neither a filename nor a body, the filename error wins |
| YoutubeVideosRoute.Fallback | app/api/youtube-videos/route.ts:38-51 | exactly one entry, with id dQw4w9WgXcQ, a medium thumbnail and the current time |
| YoutubeVideosRoute.HandleGet | app/api/youtube-videos/route.ts:3-54 | see the note on YoutubeVideosRoute.HandleGet after this table |
| Countdown.JsRem | components/christmascount.tsx:71-73 | JavaScript `%` with a positive divisor: Euclidean for a non-negative dividend; in (-n, 0] for a negative one |
| Countdown.SplitMillisBounds | components/christmas.tsx:146-152 | see the note on Countdown.SplitMillisBounds after this table |
| Countdown.Target | components/christmas.tsx:143-144 | the target is this year's Christmas unless now is strictly later, else next year's; it is never before now |
| Countdown.Remaining | components/christmascount.tsx:23-34 | the remaining time is ≥ 0, and equals the target minus now |
| Christmas.CalculateTimeToChristmas | components/christmas.tsx:141-153 | the fields are in range and account for the remaining time to the second |
| Christmas.PickType | components/christmas.tsx:158 | `Math.floor(random * 5)` picks one of the five gift types, all worth positive points |
| Christmas.GenerateNewGifts | components/christmas.tsx:155-161 | exactly `count` gifts, unwrapped, with the drawn ids and known types |
| Christmas.MarkWrapped | components/christmas.tsx:360-362 | same length; gifts with the id become wrapped, and the others are unchanged |
| Christmas.ElfGiftWrappingChallenge.constructor | components/christmas.tsx:314-321 | inactive, score 0, 60 s, record 0, no gifts |
| Christmas.ElfGiftWrappingChallenge.StartGame | components/christmas.tsx:323-331 | 12 unwrapped gifts, active, score 0, 60 s; the record is kept |
| Christmas.ElfGiftWrappingChallenge.Tick | components/christmas.tsx:333-351 | see the note on Tick after this table |
| Christmas.ElfGiftWrappingChallenge.WrapGift | components/christmas.tsx:353-379 | see the note on WrapGift after this table |
| Christmas.DeliveredByMonotone | components/christmas.tsx:237-241 | the delivered sum is non-negative and never shrinks as now advances |
| Christmas.UpdateSantaStatus | components/christmas.tsx:205-249 | see the note on UpdateSantaStatus after this table |
| ChristmasCount.ToDecimal | components/christmascount.tsx:132 | `toString` of a whole number: at least one character, all digits |
| ChristmasCount.DecimalRoundTrip | components/christmascount.tsx:132 | the printed digits read back as the number |
| ChristmasCount.DecimalLength | components/christmascount.tsx:132 | two or more digits ⇔ the number is ≥ 10 |
| ChristmasCount.PadStart | components/christmascount.tsx:132 | `padStart`: the length is the larger of the two; the input is a suffix; every added character is the fill |
| ChristmasCount.TimeBlockText | components/christmascount.tsx:129-138 | see the note on TimeBlockText after this table |
| ChristmasCount.TimeBlockValue | components/christmascount.tsx:132 | the padded text reads back as the value |
| ChristmasCount.BlocksOf | components/christmascount.tsx:82-85 | four digit blocks that read back as days, hours, minutes and seconds; the last three have exactly two digits |
| ChristmasCount.TimeBlocks | components/christmascount.tsx:70-85 | the blocks shown for a remaining time read back as the fields of its split |
| ChristmasCount.GenerateSnowflakes | components/christmascount.tsx:40-53 | 50 flakes, each built from its draws: size in [10, 30), speed in [1, 3), starting at or above the top, x ≥ 0 |
| ChristmasCount.Fall | components/christmascount.tsx:57-64 | only y changes: it moves down by the speed, or resets to -size once past the bottom |
| ChristmasCount.ChristmasCountdown.constructor | components/christmascount.tsx:18-19 | 0 ms remaining, no flakes |
| ChristmasCount.ChristmasCountdown.Mount | components/christmascount.tsx:21-53 | the remaining time is `Remaining`, which is ≥ 0; 50 fresh flakes |
| ChristmasCount.ChristmasCountdown.Interval | components/christmascount.tsx:55-65 | a fresh remaining time; every flake falls one step |
| Santa.Redate | components/santa.tsx:53-63 | no data gives no destinations. Otherwise length and order are kept, and only arrival and departure change |
| Santa.CurrentLocation | components/santa.tsx:65-67 | the first destination whose stay contains now, both ends inclusive; None ⇔ there is none |
| Santa.Render | components/santa.tsx:76-119 | see the note on Santa.Render after this table |
| Santa.SantaTracker.constructor | components/santa.tsx:42-43 | centre (84.6, 168), zoom 2 |
| Santa.SantaTracker.FollowCurrentLocation | components/santa.tsx:69-74 | with a current location: centre on it at zoom 4; otherwise no change |
| Santa.SantaTracker.ZoomToSanta | components/santa.tsx:106-113 | with a current location: centre on it at zoom 8; otherwise no change |
| SantaMap.MarkerColour | components/map.tsx:50-57 | red ⇔ arrival < now ≤ departure; green ⇔ now > departure; blue otherwise |
| SantaMap.HereExcludesWasHere | components/map.tsx:50-51 | "is here" and "was here" never hold together |
| SantaMap.ArrivalInstantDisagrees | components/map.tsx:51 | at now = arrival, the tracker says Santa is at the stop while the map paints it blue |
| SantaMap.MarkerColourInclusive | components/map.tsx:51 | intended colour: red ⇔ the tracker's inclusive stay contains now; green ⇔ departed |
| SantaMap.InclusiveAgreesWithTracker | components/santa.tsx:65-67 | with the inclusive test, the tracker's current location is red; with no current location, no marker is red |
| SantaMap.MapView.constructor | components/map.tsx:15-16 | no map and no marker layer |
| SantaMap.MapView.Mount | components/map.tsx:18-25 | a map and an empty layer are created only when there is no map |
| SantaMap.MapView.Cleanup | components/map.tsx:27-32 | the map reference becomes null; the layer reference is kept |
| SantaMap.MapView.SetView | components/map.tsx:35-39 | an existing map takes the new centre and zoom |
| SantaMap.MapView.UpdateMarkers | components/map.tsx:41-75 | with a layer: cleared, then exactly one marker per destination, in order; without a layer, nothing |
| Prisma.RetryStrategy | db/prisma.ts:10-16 | stop ⇔ times > 3; a delay never exceeds 3000 |
| Prisma.RetryDelayIsLinear | db/prisma.ts:15 | while retrying, the delay is exactly times·200, so at most 600 and the cap is never reached |
| Prisma.RetryDelayMonotone | db/prisma.ts:15 | the delay does not decrease over the retrying range |
| Prisma.GlobalScope.constructor | db/prisma.ts:73-75 | no global client; no clients constructed yet |
| Prisma.GlobalScope.LoadModule | db/prisma.ts:77-81 | an existing global client is reused; otherwise exactly one is constructed. It is stored globally only outside production |
| Prisma.GlobalScope.ReloadOutsideProduction | db/prisma.ts:77-81 | two evaluations outside production share one client and construct at most one |
| Prisma.GlobalScope.ReloadInProduction | db/prisma.ts:77-81 | in production each evaluation constructs its own client, and none is stored |

Notes on rows whose contracts have several parts:

- **CommentSection.CommentSectionState.OnSubmit**
  - Without a user: the login error, and no request.
  - A refused check: the inappropriate-content error, and only the check request.
  - A passing check sends the POST.
  - A parsed OK reply prepends the comment and the commenter's record, clears the form and reports success.
  - Any other reply leaves both lists unchanged and reports the failure.
  - Equal lengths, and author alignment, are preserved.
- **CreateBlogPost.BlogPostEditor.CheckAdminStatus**
  - isAdmin ⇔ both replies parse, there is no error field, and the role is exactly "ADMIN".
  - Loading ends on every path.
  - A non-admin sees access denied.
  - The second request goes to /api/userdata/{userId}, and is sent only after a clean first reply.
- **CreateBlogPost.BlogPostEditor.HandleSubmit**
  - It is reachable only from the editor view.
  - It posts the current title and the HTML.
  - The status becomes `SubmitOutcome`.
  - OK clears the title and the document; every other outcome keeps both.
  - Loading ends false.
- **CommentsRoute.HandleGet**
  - No postId: 400. A store failure: 500.
  - Otherwise 200, holding exactly the post's comments, as a permutation of the filter, newest first.
  - userData is index-aligned with `AuthorData` of each comment's author.
- **CommentsRoute.HandlePost**
  - 401 comes before the body is read. A malformed body gives 500. A missing content or postId gives 400.
  - A failed insert gives 500. Otherwise 201, with the comment stored under the authenticated id.
  - The store changes only on 201.
- **BlogPostsRoute.HandlePost**
  - The body is parsed first: a malformed body gives 500 'Failed to create blog post'.
  - Then 401. Then a failed insert gives 500.
  - Otherwise 200, with the post stored under the authenticated id.
  - The store changes only on 200.
- **EventsRoute.HandleGet**
  - A failure gives 500.
  - With a status filter: exactly the events with that status.
  - Without one: exactly the events dated at or after now.
  - The result is a permutation of the filter, in ascending date order.
- **UploadRoute.HandlePost**
  - A missing filename gives 400, then a missing body gives 400.
  - `put` is called ⇔ both are present, and then with the filename.
  - The blob comes back unchanged, or a failed put gives 500 'Failed to upload file'.
- **YoutubeVideosRoute.HandleGet**
  - The status is always 200.
  - The fallback is used without a key, when the upstream is unreachable or not OK, or when there is no item list.
  - Otherwise there is one video per item, in order, with the id, title, thumbnails and publishedAt copied.
- **Countdown.SplitMillisBounds**
  - For d ≥ 0: days ≥ 0, hours < 24, minutes < 60, seconds < 60.
  - days·86400000 + hours·3600000 + minutes·60000 + seconds·1000 ≤ d, and d is less than that sum + 1000.
- **Christmas.ElfGiftWrappingChallenge.Tick**
  - Inactive, or no time left: no change.
  - timeLeft > 1: it decrements.
  - Otherwise the game ends with 0 s and the record set to max(record, score).
  - The record never decreases.
- **Christmas.ElfGiftWrappingChallenge.WrapGift**
  - Inactive, an unknown id, or an already-wrapped gift: no change.
  - Otherwise the first gift with that id is wrapped, and the score rises by its points.
  - If every gift is then wrapped: +10 s and a fresh batch of 12.
- **Christmas.UpdateSantaStatus**
  - The countdown is replaced.
  - The current stop is the first with arrival ≤ now ≤ departure. Its location is shown, and presents become the sum over departed stops.
  - With no current stop, the location and presents are kept.
  - The next stop is the first stop with arrival > now, or none.
- **ChristmasCount.TimeBlockText**
  - 0–9 gain one leading '0'; larger values are unchanged.
  - The text is at least 2 characters, and exactly 2 below 100.
  - It reads back as the value.
- **Santa.Render**
  - An error shows the error text first; loading shows the skeleton.
  - Otherwise the tracker, whose status panel is present ⇔ some destination contains now, and then shows that destination.

## Left out

- Haversine distance, travel speed, the percentage bars and the minutes-to-next-stop text in components/christmas.tsx. These are floating-point trigonometry and division for display only. The `travelSpeed` field of the tracker's state is dropped with them.
- Randomness, ids and the calendar are inputs.
  - `crypto.randomUUID` and `Math.random` enter as draws: ids, and reals in [0, 1).
  - `new Date`, `setFullYear` and the "Christmas of this year or next" instants enter as integers or as a function on milliseconds.
  - `toLocaleString`, `toISOString` and `formatDistanceToNow` are not modelled.
- Pixel sizes and coordinates are Dafny reals, not IEEE doubles.
- External services are replaced by their possible outcomes: the identity provider, the store (Prisma), the cache (Redis), blob storage, the video API, the profanity service, the route JSON, the map library and the rich-text editors. The editor's HTML export enters HandleSubmit as a parameter. The upload callback inside the blog editor is left out; its server side is `UploadRoute.HandlePost`.
- React scheduling is not modelled: effects, intervals and setter batching are left out. Each handler is one sequential transition.
  - `WrapGift` applies the nested score and time updates in the order they are queued.
  - The comment section's `isCheckingProfanity` is modelled only at the end of the check.
- The server-side delete routes, cascading deletion and `/api/userdata` are not part of this model. Only the client's delete requests and their OK / not-OK replies are modelled.
- Redis connection events, TLS options and the `process.exit` on a failed initialisation in db/prisma.ts are left out. They are logging and process control. `maxRetriesPerRequest` is recorded as a constant only.
- The profanity score is modelled as missing, `null` or a number. A score of another JSON type, such as a string or a boolean, is not modelled; the reply's declared type makes it a number.
- CommentSection.SubmitForm counts the content's length in Unicode code points. zod counts UTF-16 code units, so the two differ for characters outside the Basic Multilingual Plane.
- CommentSection.CommentSectionState.HandleDeleteCommentAligned does not restate the alignment invariant in its own contract. `CommentSection.DeleteAlignedPreservesAlignment` states it about the function the method is proved equal to.
- EventsRoute.HandlePost models `new Date(text)` as an abstract parse. An unparsable date is treated as a failing insert (500).

## Findings

| source | as written | input that shows it | evidently intended | confidence | as-written member | corrected member |
|---|---|---|---|---|---|---|
| components/CommentSection.tsx:144 | deleting a comment filters `comments` but leaves the index-matched `commentUserData` as it was | comments [c1 by admin x, c2 by user y], records [x ADMIN, y USER]; delete c1; now c2 is shown under x's name with x's ADMIN record, and a third user z sees its delete control | drop the comment's record together with it | not executed | CommentSection.DeleteAsWrittenMisaligns | CommentSection.DeleteAlignedPreservesAlignment |
| components/PostContent.tsx:29 | `canDelete` tests the role of the record shown with the item, which is the author's (the same expression is at components/CommentSection.tsx:210 and components/BlogPostContent.tsx:22) | a USER viewer on an ADMIN's post sees the delete control; an ADMIN viewer on a USER's post does not; a MOD viewer on a USER's comment does not, though the comment delete route accepts a MOD | test the viewer's own role against the roles the matching delete route accepts: ADMIN for posts and blog posts, ADMIN or MOD for comments | not executed | DeleteRights.AuthorRoleRuleMisgrants | DeleteRights.ViewerRoleRuleCases |
| app/api/blog-posts/route.ts:10-21 | any authenticated caller creates a blog post; the route never answers 403, though the editor has a 403 branch (components/createblogpost.tsx:100-104) | caller u1 whose role is USER, with a parsed body and a working store: 200 and a stored post | answer 403 to callers whose role is not ADMIN | not executed | BlogPostsRoute.PlainUserCreatesBlogPost | BlogPostsRoute.HandlePostAdminOnly |
| components/map.tsx:51 | "Santa is here" uses `now - arrival > 0`, strict at arrival, while the tracker card's test is inclusive (components/santa.tsx:66) | now = arrival ≤ departure: the card reports Santa at the stop and the map paints it blue | `now - arrival >= 0` | not executed | SantaMap.ArrivalInstantDisagrees | SantaMap.InclusiveAgreesWithTracker |
| components/CommentSection.tsx:73 | the check passes when `data.score !== undefined && data.score < 1`; a `null` score is not undefined, and `null < 1` holds because `null` converts to 0 | an OK reply with body `{"score": null}`: the comment is accepted without a score | pass only a numeric score below 1 | not executed | CommentSection.NullScorePasses | CommentSection.ProfanityFailsClosed |
