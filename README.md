# DreamBee: a Dafny model of the Discord–Shopify image bot

DreamBee is a Discord bot. A user spends a credit with `/dream <prompt>`. The bot has FLUX generate an
image, stores the image in a Backblaze B2 bucket, and lists it as an "Artist Trading Card" product in a
Shopify shop, inside a collection named after the user. Credits live in Redis. `/claim` is meant to add
five of them once a day (as written it grants them on every call, see "## Findings"), and administrators may add or deduct credits. Requests pass through two bounded
in-memory queues: one for image generation and one for product creation. A cache of Discord
interactions, swept every 15 minutes, lets the bot deliver follow-ups through the original
interaction, then the channel, then a direct message.

This project models that core in Dafny and proves properties of the model. It has one module per
core source file, plus three shared modules:

- `InMemoryQueue` (`in_memory_queue.dfy`): `src/utils/in_memory_queue.py`, as a class over a `seq` buffer.
- `CreditLedger` (`credit_system.dfy`): `src/credit_system.py`, as a class over two maps that stand for the Redis key space.
- `CreditCommands` (`credit_commands.dfy`): `src/cogs/credit_commands.py`.
- `FluxImageHandler` (`flux_image_handler.dfy`): `src/handlers/flux_image_handler.py`.
- `BackblazeHandler` (`backblaze_handler.dfy`): `src/handlers/backblaze_handler.py`.
- `ShopifyService` (`shopify_service.dfy`): `src/services/shopify_service.py`.
- `ProductHandler` (`product_handler.dfy`): `src/handlers/product_handler.py`.
- `Interactions` (`interactions.dfy`): the interaction cache, its sweep and the follow-up chain, which both `image_product_command.py` files share.
- `ImageProductCog` (`cogs_image_product.dfy`): `src/cogs/image_product_command.py`, the live, credit-gated pipeline.
- `ImageProductLegacy` (`commands_image_product.dfy`): `src/commands/image_product_command.py`, the older variant with the "Add to Shop" button.
- `Startup` (`startup.dfy`): `src/main.py`, covering the environment check, the cog filter and the shutdown loop.
- `Strings`, `Urls` and `Base` (`strings.dfy`, `urls.dfy`, `base.dfy`): ASCII models of the Python `str` and `urllib.parse` operations the code uses, plus `Option` and `Result`.

State the source changes in place is held in Dafny classes:
- the queue's buffer and counters;
- the ledger's balances and claim expiries;
- the interaction cache;
- the cogs' queues and caches.

Each method's postcondition ties the object's new state to a pure step function of the old state.
The lemmas about those functions state what the source promises.

Anything outside the program is a parameter of the operation that uses it:
- Redis faults and WATCH conflicts;
- HTTP replies from Shopify, S3 and FLUX;
- Discord's answer at each delivery tier;
- uuids and the current time.

Time is an integer number of seconds, and money is an integer number of cents.

## Model

| member | source | states |
|---|---|---|
| InMemoryQueue.ApplyIsFifo | src/utils/in_memory_queue.py:72-110 | any single call other than `clear` keeps "buffered before + accepted = delivered + buffered after" |
| InMemoryQueue.RunIsFifo | src/utils/in_memory_queue.py:72-122 | over any clear-free sequence of calls, the items buffered at the start followed by every accepted item equal every delivered item followed by what is still buffered: first in, first out |
| InMemoryQueue.DeliveredIsPrefix | src/utils/in_memory_queue.py:85-103 | the items handed out by dequeues are a prefix of the buffered-then-accepted items, so nothing is skipped, reordered or invented |
| InMemoryQueue.RunCounters | src/utils/in_memory_queue.py:85-103 | after any sequence of calls (clear included) `total_enqueued` and `total_dequeued` have grown by exactly the number of successful enqueues and dequeues, and the capacity is unchanged |
| InMemoryQueue.RunKeepsCapacity | src/utils/in_memory_queue.py:82-85 | no sequence of calls makes the buffer longer than `max_size` |
| InMemoryQueue.RunKeepsBalance | src/utils/in_memory_queue.py:85-103 | `current_size == total_enqueued - total_dequeued` is preserved by every clear-free sequence of calls |
| InMemoryQueue.ClearBreaksBalance | src/utils/in_memory_queue.py:112-116 | clearing a non-empty balanced queue breaks that identity, because both counters are left untouched |
| InMemoryQueue.ClosedAcceptsNothing | src/utils/in_memory_queue.py:80-81 | once closed, a queue stays closed, accepts no item, and refuses every enqueue with the closed-queue `QueueFullError` |
| InMemoryQueue.DrainClosed | src/utils/in_memory_queue.py:97-105 | on a closed queue the first `len` dequeues deliver the buffered items in order and every later one raises the closed-and-empty `QueueEmptyError` |
| InMemoryQueue.OverfillFresh | src/utils/in_memory_queue.py:82-86 | pushing `n + 1` items into a fresh queue of capacity `n` accepts the first `n` and refuses the last as full |
| InMemoryQueue.FillOpen | src/utils/in_memory_queue.py:80-86 | pushing one item more than the free room into an open queue accepts all but the last, appends them in order, and refuses the last as full |
| InMemoryQueue.Queue.constructor | src/utils/in_memory_queue.py:24-31 | a new queue is empty, open, has zeroed counters and the given capacity and name |
| InMemoryQueue.Queue.Enqueue | src/utils/in_memory_queue.py:72-87 | succeeds iff the queue is open and below capacity; success appends the item at the tail and adds one to `total_enqueued`; a refusal changes nothing |
| InMemoryQueue.Queue.Dequeue | src/utils/in_memory_queue.py:89-105 | succeeds iff the buffer is non-empty, closed or not; success returns the head, removes it and adds one to `total_dequeued`; an error changes nothing |
| InMemoryQueue.Queue.Peek | src/utils/in_memory_queue.py:107-110 | returns the head iff the buffer is non-empty, and `None` otherwise |
| InMemoryQueue.Queue.Clear | src/utils/in_memory_queue.py:112-116 | empties the buffer and leaves the counters and the closed flag as they were |
| InMemoryQueue.Queue.Close | src/utils/in_memory_queue.py:118-122 | sets the closed flag and nothing else: buffered items stay dequeuable |
| InMemoryQueue.Queue.GetStatistics | src/utils/in_memory_queue.py:149-162 | reports the current size, capacity and both counters; `is_full` iff the size equals the capacity, `is_empty` iff it is zero |
| InMemoryQueue.Queue.Drain | src/utils/in_memory_queue.py:124-130 | iterating the queue yields exactly the buffered items in order, leaves the buffer empty and counts each dequeue |
| InMemoryQueue.Queue.ProcessQueue | src/utils/in_memory_queue.py:132-147 | the handled items followed by what remains are the original buffer; on a closed queue with enough iterations every buffered item is handled, in order |
| InMemoryQueue.Queue.FromIterable | src/utils/in_memory_queue.py:164-169 | no queue comes back iff there are more items than the capacity; otherwise the new queue holds exactly the items in order with `total_enqueued` equal to their number |
| CreditLedger.KeyParsesBack | src/credit_system.py:74-77 | `int(key.split(":")[1])` applied to `_key(u, t)` gives back `u`, for every integer id (negative ones included) and every key type without a colon |
| CreditLedger.KeyInjective | src/credit_system.py:74-77 | two users with the same key of one type are the same user |
| CreditLedger.ExecuteWithRetry | src/credit_system.py:79-89 | the operation completes iff one of the first three attempts does not raise; it completes on the first such attempt; the sleeps are `0.1 * 2**j` seconds, one after each failed attempt except the third |
| CreditLedger.Ttl | src/credit_system.py:139-145 | the store's TTL reply is -2 for a missing or expired marker and otherwise a positive number of seconds |
| CreditLedger.DecidingRoundFrame | src/credit_system.py:106-122 | the WATCH retry loop only ever rewrites the watched user's key |
| CreditLedger.DecidingRoundValue | src/credit_system.py:106-122 | the loop decides on the balance the user had or on a value a concurrent writer stored |
| CreditLedger.WithdrawUncontended | src/credit_system.py:110-119 | without interference a deduction succeeds iff the balance is at least `amount`; success subtracts exactly `amount`, failure changes nothing |
| CreditLedger.WithdrawKeepsNonNegative | src/credit_system.py:111-117 | a deduction keeps a ledger of non-negative balances non-negative (when concurrent writers store non-negative values too) |
| CreditLedger.DepositThenWithdraw | src/credit_system.py:95-117 | adding `a` and then deducting `a` succeeds and restores every balance |
| CreditLedger.WithdrawManyCount | src/credit_system.py:102-119 | `k` deductions of `a > 0` from a balance `B >= 0` succeed `n` times with `a * n <= B`, end at exactly `B - a * n`, and fail only once less than `a` is left |
| CreditLedger.WithdrawManyNone | src/credit_system.py:112-114 | when less than `a` is left, every further deduction fails and the ledger stays as it was |
| CreditLedger.MoveConserves | src/credit_system.py:229-243 | a transfer succeeds iff the sender holds at least `amount` when the loop decides; it then moves exactly `amount`; the two users' combined balance is unchanged; nobody else's balance changes |
| CreditLedger.MoveUncontended | src/credit_system.py:233-243 | without interference a refused transfer leaves the ledger exactly as it was and a successful one conserves the pair's total |
| CreditLedger.BatchApplyEffect | src/credit_system.py:210-217 | a batch adds each user's delta, unchecked in sign, leaves everyone else alone, and the opposite deltas undo it |
| CreditLedger.ClaimCooldown | src/credit_system.py:139-156 | after a marker set at `t` (which only the corrected `set_last_claim` writes), a claim at `now` is allowed iff `now >= t + 86400`; a refusal reports the exact time left, between 1 and 86400 seconds |
| CreditLedger.SliceTo | src/credit_system.py:203 | Python's `[:n]`: a prefix of length `min(n, len)`, or `len + n` (at least 0) items for a negative `n` |
| CreditLedger.InsertDescPermutes | src/credit_system.py:203 | one insertion step of the sort adds exactly the inserted entry |
| CreditLedger.InsertDescStable | src/credit_system.py:203 | an insertion keeps the relative order of the entries with any one balance |
| CreditLedger.InsertDescSorted | src/credit_system.py:203 | inserting into a list sorted by descending credits keeps it sorted |
| CreditLedger.SortDescProps | src/credit_system.py:203 | `sorted(..., key=credits, reverse=True)` is in descending order, a permutation of its input, and stable |
| CreditLedger.LeaderboardDominates | src/credit_system.py:203 | an entry cut off a top-`n` board has no more credits than any entry on it |
| CreditLedger.CreditSystem.constructor | src/credit_system.py:35-45 | a new ledger holds no balances and no claim markers |
| CreditLedger.CreditSystem.AddCredit | src/credit_system.py:91-100 | reports success iff the retried `INCRBY` gets through; only then is `amount` added, unchecked, to the user's (possibly absent) balance; claim markers are untouched |
| CreditLedger.CreditSystem.DeductCredit | src/credit_system.py:102-125 | an unreachable store yields `False` and no change; otherwise the ledger and the answer are those of the WATCH loop, which deducts exactly `amount` iff the balance it decides on covers it |
| CreditLedger.CreditSystem.GetCredits | src/credit_system.py:127-137 | the stored balance; 0 for a user with no balance and 0 when the read fails after all retries |
| CreditLedger.CreditSystem.CanClaim | src/credit_system.py:139-150 | `(ttl <= 0, max(0, ttl))` for the marker's TTL, and `(False, 0)` when the store fails; the remaining time is never negative and is 0 whenever a claim is allowed |
| CreditLedger.CreditSystem.SetLastClaim | src/credit_system.py:152-161 | as written, the call always fails (`ex=86400` reaches `_execute_redis_operation`, which takes positional arguments only) and nothing changes: no marker is written and balances are untouched |
| CreditLedger.CreditSystem.SetLastClaimCorrected | src/credit_system.py:152-161 | with the expiry reaching `SET`: on success the marker expires exactly 86400 seconds from now; on failure nothing changes; balances are untouched |
| CreditLedger.CreditSystem.ResetCredits | src/credit_system.py:163-172 | on success the user's balance is 0 and nothing else changes; on failure nothing changes |
| CreditLedger.CreditSystem.SetCredits | src/credit_system.py:174-183 | on success the user's balance is `amount` and nothing else changes; on failure nothing changes |
| CreditLedger.CreditSystem.GetAllUsersWithCredits | src/credit_system.py:185-195 | lists every user with a stored balance exactly once, and nobody else; `[]` when the listing fails |
| CreditLedger.CreditSystem.GetCreditLeaderboard | src/credit_system.py:197-208 | the board is sorted by descending credits, has `top_n` entries (Python slice semantics) out of all users, lists distinct users with the balance read for each, and no user left off it reads more than anyone on it |
| CreditLedger.CreditSystem.BatchUpdateCredits | src/credit_system.py:210-222 | all deltas are applied together when the store is reachable, and none otherwise |
| CreditLedger.CreditSystem.TransferCredits | src/credit_system.py:224-249 | an unreachable store yields `False` and no change; otherwise the ledger and the answer are those of the sender-watching loop, which moves exactly `amount` iff the sender's balance covers it |
| CreditLedger.LeaderboardSpec | src/credit_system.py:199-205 | a sorted permutation of the (user, balance) pairs of all listed users, cut to `top_n`, meets the leaderboard promise |
| CreditLedger.BatchStep | src/credit_system.py:214-216 | queueing one more `INCRBY` keeps the loop's account of which deltas are already staged |
| CreditLedger.StagedIsBatch | src/credit_system.py:213-217 | once every delta is staged, the committed ledger is the batch's result |
| CreditCommands.TimeParts | src/cogs/credit_commands.py:65-72 | the message has one to three pieces: an hours piece first iff at least an hour remains, a minutes piece iff the remainder below the hour holds a whole minute, and always the seconds piece last |
| CreditCommands.TimeComponents | src/cogs/credit_commands.py:65-66 | the two `divmod`s give `h*3600 + m*60 + s == remaining` with `m < 60` and `s < 60` |
| CreditCommands.TimeRemainingIsJoin | src/cogs/credit_commands.py:67-72 | the `+=`-accumulated message is its pieces joined by single spaces |
| CreditCommands.AccumulatedIsJoin | src/cogs/credit_commands.py:67-72 | for any hours, minutes and seconds, the accumulation equals the pieces joined by spaces |
| CreditCommands.PartOf | src/cogs/credit_commands.py:69-72 | one piece (`"<n>h"`, `"<n>m"` or `"<n>s"`) reads back as `n` times its unit, and holds no space |
| CreditCommands.TimeRemainingRoundTrip | src/cogs/credit_commands.py:65-72 | reading the message back (pieces valued by unit and summed) yields exactly the remaining seconds: nothing is lost or double-counted |
| CreditCommands.UnitPartsHaveNoSpace | src/cogs/credit_commands.py:69-72 | no piece of the message contains a space |
| CreditCommands.UnitPartsSum | src/cogs/credit_commands.py:65-72 | the pieces' values sum to `h*3600 + m*60 + s` |
| CreditCommands.TimeRemainingShows | src/cogs/credit_commands.py:68-72 | hours appear iff at least an hour remains, minutes iff the remainder below the hour holds a whole minute, and the seconds always end the message |
| CreditCommands.ClaimEveryTime | src/cogs/credit_commands.py:55-76 | as written, once a user may claim, every later `/claim`, however soon, is granted: the markers never change and each claim adds 5 credits |
| CreditCommands.DailyClaimOnceCorrected | src/cogs/credit_commands.py:59-73 | with the marker written, after an allowed claim at `t`, a claim before `t + 86400` adds nothing and reports exactly the time left, while one from then on grants 5 more |
| CreditCommands.CreditCommandsCog.constructor | src/cogs/credit_commands.py:7-9 | the cog holds the given ledger and admin id |
| CreditCommands.CreditCommandsCog.Balance | src/cogs/credit_commands.py:16-24 | replies with the credits `get_credits` reads, 0 when the read fails |
| CreditCommands.CreditCommandsCog.AddCredit | src/cogs/credit_commands.py:26-37 | a non-admin is refused and a non-positive amount is rejected, both before the ledger is touched; otherwise `amount` is added when the store is reachable, and the reply names the amount either way |
| CreditCommands.CreditCommandsCog.DeductCredit | src/cogs/credit_commands.py:39-53 | the same two guards come first; otherwise the ledger is that of `deduct_credit`, and the reply says "deducted" iff it returned success and "not enough credits" otherwise |
| CreditCommands.CreditCommandsCog.Claim | src/cogs/credit_commands.py:55-76 | when `can_claim` allows it, 5 credits are added if the store call gets through, and the marker is never set; otherwise nothing changes and the reply gives the time left; with no store errors the result is one `ClaimStep` |
| CreditCommands.CreditCommandsCog.ClaimCorrected | src/cogs/credit_commands.py:55-76 | with the corrected `set_last_claim`: when `can_claim` allows it, 5 credits are added and then the 24-hour marker is set, each only if its own store call gets through; otherwise nothing changes and the reply gives the time left; with no store errors the result is one corrected claim step |
| FluxImageHandler.RemoveAngles | src/handlers/flux_image_handler.py:188 | `re.sub(r'[<>]', '', s)` leaves no `<` or `>` and is shorter by exactly their number |
| FluxImageHandler.RemoveAnglesKeeps | src/handlers/flux_image_handler.py:188 | every other character keeps its number of occurrences |
| FluxImageHandler.RemoveAnglesNoop | src/handlers/flux_image_handler.py:188 | a text without angle brackets is left unchanged |
| FluxImageHandler.StripAbsent | src/handlers/flux_image_handler.py:189 | `strip()` never introduces a character |
| FluxImageHandler.NoAnglesAfterStrip | src/handlers/flux_image_handler.py:188-189 | the stripped, bracket-free prompt holds no angle bracket |
| FluxImageHandler.SanitizePrompt | src/handlers/flux_image_handler.py:184-194 | an accepted prompt is 3 to 200 characters long, holds no `<` or `>`, and has no leading or trailing whitespace |
| FluxImageHandler.SanitizeAccepts | src/handlers/flux_image_handler.py:188-194 | a prompt is accepted iff its stripped, bracket-free text is 3 to 200 characters long, and the result is that contiguous piece of the bracket-free text |
| FluxImageHandler.SanitizeIdempotent | src/handlers/flux_image_handler.py:184-194 | sanitising an accepted prompt again accepts it unchanged |
| FluxImageHandler.CountWhere | src/handlers/flux_image_handler.py:80-87 | no more words match than there are words |
| FluxImageHandler.CountWhereAppend | src/handlers/flux_image_handler.py:80-87 | the match count of two word lists together is the sum of their counts |
| FluxImageHandler.CountMatchesFuzzy | src/handlers/flux_image_handler.py:80-87 | the counter loop counts exactly the words the matcher accepts |
| FluxImageHandler.ChooseSize | src/handlers/flux_image_handler.py:94-102 | the size is always one of `VALID_IMAGE_SIZES`; it is `portrait_16_9` iff the portrait score is strictly greater, and `landscape_16_9` otherwise (ties included) |
| FluxImageHandler.DetermineImageSize | src/handlers/flux_image_handler.py:55-102 | the size is the comparison of the two keyword counts over the prompt's lower-cased words, and always valid |
| FluxImageHandler.EffectiveSize | src/handlers/flux_image_handler.py:123-128 | a valid requested size is kept, a missing or empty one is replaced by the determined size, and the result is always valid |
| FluxImageHandler.ArgumentsSeed | src/handlers/flux_image_handler.py:130-142 | the arguments carry the eight fixed fields, plus `seed` exactly when a seed was given |
| FluxImageHandler.SelectSize | src/handlers/flux_image_handler.py:123-128 | a valid requested size is used; an invalid non-empty one becomes `landscape_16_9`; a missing or empty one is determined from the prompt; in every case the size is `EffectiveSize` of the request and the determined size |
| FluxImageHandler.Submit | src/handlers/flux_image_handler.py:146-182 | one to three submissions of the same request; every one but the last raised; a raise on the third gives `None`; a returned result ends the loop at once, with its images only when there are some; the waits are `2**(attempt-1)` seconds, none after the last |
| FluxImageHandler.FirstAnswer | src/handlers/flux_image_handler.py:146-182 | the first of the three attempts that does not raise, or none when all three raise |
| FluxImageHandler.SubmitOutcome | src/handlers/flux_image_handler.py:146-182 | images come back exactly when the first non-raising attempt returned a non-empty list, and they are that attempt's images; with no such attempt, all three were made |
| FluxImageHandler.GenerateImage | src/handlers/flux_image_handler.py:104-182 | an invalid prompt returns `None` before any submission; otherwise every submission is the same request: the sanitised prompt, the effective size (determined from the sanitised prompt when none was requested, the requested one when valid, the default otherwise), the given seed and the defaults for steps, guidance, image count, safety tolerance and format; images come back exactly when the first answering attempt returned some, and they are its images |
| Urls.ValidUrlShape | src/handlers/backblaze_handler.py:202-208 | a string passes `all([scheme, netloc])` only if it reads `scheme://netloc...` with both parts non-empty |
| Urls.NoColonNotUrl | src/handlers/backblaze_handler.py:202-208 | text without a colon (the empty string included) is never a valid URL |
| BackblazeHandler.MissingParameters | src/handlers/backblaze_handler.py:27-31 | each of `key_id`, `application_key`, `bucket_name` is listed iff its value is unset or empty |
| BackblazeHandler.MissingInOrder | src/handlers/backblaze_handler.py:28-31 | the missing names come out in declaration order |
| BackblazeHandler.NewHandler | src/handlers/backblaze_handler.py:22-35 | the constructor raises iff some parameter is missing, with the message `Missing required parameters: ` and the names joined by `, `; otherwise it keeps the credentials, the region (`us-east-005` when unset) and the endpoint built from it |
| BackblazeHandler.NewHandlerComplete | src/handlers/backblaze_handler.py:27-32 | a handler is built iff all three parameters are present |
| BackblazeHandler.PublicUrlValid | src/handlers/backblaze_handler.py:178-180 | the public URL is a valid URL whose network location is `{bucket}.s3.{region}.backblazeb2.com` and which ends with `/` and the key |
| BackblazeHandler.PublicUrlInjective | src/handlers/backblaze_handler.py:178-180 | distinct keys get distinct public URLs |
| BackblazeHandler.MimeType | src/handlers/backblaze_handler.py:182-190 | the MIME type is always one of the three the method names |
| BackblazeHandler.MimeTypeCases | src/handlers/backblaze_handler.py:182-190 | `image/jpeg` iff the lower-cased name ends `.jpg` or `.jpeg`, `image/png` iff it ends `.png` (and not those), `application/octet-stream` iff none of them |
| BackblazeHandler.GeneratedNamesAreJpeg | src/handlers/backblaze_handler.py:184-185 | every `ATC_<id>.jpg` name the image pipeline uploads is sent as JPEG |
| BackblazeHandler.UploadImage | src/handlers/backblaze_handler.py:68-99 | an empty name or empty content returns `None` without contacting storage; when creating the S3 client raises, nothing is sent; otherwise exactly one `put_object` with the bucket, key, body, ACL and chosen MIME type is sent, and the public URL comes back iff the store accepts it |
| BackblazeHandler.GetFileUrl | src/handlers/backblaze_handler.py:101-127 | a key that is already a valid URL comes back unchanged with no storage call; otherwise storage is asked and the public URL comes back iff `head_object` finds the key |
| BackblazeHandler.GetFileUrlOfPublicUrl | src/handlers/backblaze_handler.py:101-105 | resolving a public URL the handler produced returns it unchanged without a storage call |
| ShopifyService.Get | src/services/shopify_service.py:130 | `response.get(key)` is non-null only for an object holding `key`, and is then that entry |
| ShopifyService.BaseUrlHost | src/services/shopify_service.py:30 | the base URL is a valid URL whose network location is `{shop_name}.myshopify.com` |
| ShopifyService.Classify | src/services/shopify_service.py:77-89 | a status is a success iff it is 200 or 201, and a server error iff it is in 500..599 |
| ShopifyService.RequestOnce | src/services/shopify_service.py:73-92 | one attempt raises iff the network failed or the status is 5xx, returns the decoded body iff the status is 200 or 201 and the body is not JSON `null` (which decodes to `None`), and returns `None` otherwise |
| ShopifyService.Request | src/services/shopify_service.py:58-65 | the decorator makes between one and four attempts |
| ShopifyService.RequestRetries | src/services/shopify_service.py:58-92 | every attempt before the last raised; the request raises only after four attempts; it returns what the last attempt gave |
| ShopifyService.ClientErrorNotRetried | src/services/shopify_service.py:80-89 | a status that is neither a success nor 5xx returns `None` after a single attempt |
| ShopifyService.Extract | src/services/shopify_service.py:129-138 | a wrapper's result is the entry under its key iff the reply and that entry are both truthy |
| ShopifyService.ExtractResponse | src/services/shopify_service.py:128-138 | a raise inside `_request` propagates; otherwise the wrapper extracts its entry |
| ShopifyService.LogId | src/services/shopify_service.py:132 | a success log line reading `x['id']` raises exactly when the entity found has no `id`, and otherwise changes nothing |
| ShopifyService.CreateProductReply | src/services/shopify_service.py:128-138 | a product comes back only when the reply carries a truthy `product` entry with an `id` |
| ShopifyService.CreateCollectionReply | src/services/shopify_service.py:301-322 | a collection comes back only when the reply carries a `custom_collection` entry with an `id` |
| ShopifyService.CreateCollectReply | src/services/shopify_service.py:324-346 | raises iff `_request` raises; otherwise the reply's truthy `collect` entry or `None` |
| ShopifyService.DeleteProduct | src/services/shopify_service.py:187-198 | `delete_product` is true iff `_request` returned anything other than `None` |
| ShopifyService.DeleteNullBody | src/services/shopify_service.py:79 | a 200 reply whose body is JSON `null`, and a non-success status, are both reported as a failed deletion |
| ShopifyService.DeleteAcceptsEmptyBody | src/services/shopify_service.py:193 | an empty JSON object counts as a deletion while `create_product` treats the same reply as a failure |
| ShopifyService.CollectionByTitle | src/services/shopify_service.py:279-299 | a server failure raises; a falsy reply or an empty list gives `None`; otherwise the first listed collection, which must have an `id` |
| ShopifyService.PriceText | src/services/shopify_service.py:116 | `f"{price:.2f}"` ends in a dot and exactly two digits |
| ShopifyService.ProductPayloadTags | src/services/shopify_service.py:108-124 | the payload has a `tags` entry iff tags are non-empty; splitting it on `,` gives them back when no tag holds a comma; missing images are sent as `[]`; title and vendor are as given |
| ShopifyService.IsValidUrlAsWritten | src/services/shopify_service.py:348-356 | `_is_valid_url` as written always raises (`.env` on a `bool`) |
| ShopifyService.UploadWith | src/services/shopify_service.py:140-166 | a raising URL test propagates; an invalid URL gives `None` without a request; a valid one posts the image and returns its `image` entry |
| ShopifyService.UploadAlwaysRaisesAsWritten | src/services/shopify_service.py:144 | as written, `upload_product_image` raises for every URL and every reply |
| ShopifyService.IsValidUrlCorrected | src/services/shopify_service.py:355-356 | the intended test is `all([scheme, netloc])` and never raises |
| ShopifyService.UploadProductImage | src/services/shopify_service.py:140-166 | with the intended test, an invalid URL gives `None` and a valid one gives the reply's `image` entry |
| ShopifyService.UploadSucceedsCorrected | src/services/shopify_service.py:140-166 | with the intended test, an `https` URL and a 201 reply carrying an image with an `id` upload that image |
| ProductHandler.ConcatInChainOrder | src/handlers/product_handler.py:50-77 | two call lists in chain order, the second wholly after the first, together stay in chain order |
| ProductHandler.Index | src/handlers/product_handler.py:62 | `d[key]` yields a value iff `d` is an object holding `key`, and then that entry |
| ProductHandler.CreateShopifyProduct | src/handlers/product_handler.py:87-112 | no call is made iff `title`, `body_html`, `vendor` or the price is missing; otherwise exactly one `create_product` call carrying the title; a product comes back only when the service returned a truthy one |
| ProductHandler.GetImageUrl | src/handlers/product_handler.py:114-141 | an empty value gives `None` with no call; a valid URL comes back unchanged with no call; any other key is looked up once in Backblaze and gives its public URL iff the file is found |
| ProductHandler.UploadImageToShopify | src/handlers/product_handler.py:143-170 | an image comes back iff the service returned a truthy answer; a raise or a falsy answer gives `None` |
| ProductHandler.CollectionTitle | src/handlers/product_handler.py:68 | the title is `Artist-` followed by exactly the username |
| ProductHandler.GetOrCreateCollection | src/handlers/product_handler.py:172-204 | the lookup is always made first; a found collection is returned without creating one; creation is the only possible second call; any collection returned has an `id` |
| ProductHandler.AddProductToCollection | src/handlers/product_handler.py:206-238 | the association succeeds iff the service returns a `collect` |
| ProductHandler.HostOf | src/handlers/product_handler.py:250 | the host can be read iff the base URL contains `//` (otherwise `IndexError`) |
| ProductHandler.ConstructProductUrl | src/handlers/product_handler.py:240-252 | the product URL is `https://` + the host + `/products/` + the handle, whenever the host can be read |
| ProductHandler.ShopHostNoSlash | src/services/shopify_service.py:30 | a shop's myshopify host holds no `/` when the shop name holds none |
| ProductHandler.ApiPathNoDoubleSlash | src/services/shopify_service.py:30 | the API path `/admin/api/2024-07` never has two slashes in a row |
| ProductHandler.SplitBaseUrl | src/handlers/product_handler.py:250 | splitting the service's base URL on `//` cuts off `https:` and nothing else |
| ProductHandler.ProductUrlOfShop | src/handlers/product_handler.py:250 | for the service's own base URL the product URL is `https://{shop}.myshopify.com/products/{handle}` |
| ProductHandler.Prepend | src/handlers/product_handler.py:50-77 | calls of lower rank placed in front keep the chain order |
| ProductHandler.AfterCollection | src/handlers/product_handler.py:74-85 | the association and URL steps only make calls of the last rank |
| ProductHandler.AfterUpload | src/handlers/product_handler.py:67-85 | the collection step and what follows it make calls of collection rank or later |
| ProductHandler.AfterImage | src/handlers/product_handler.py:62-85 | the image upload and what follows it make calls of upload rank or later |
| ProductHandler.AfterCreate | src/handlers/product_handler.py:56-85 | everything after creation makes calls of image rank or later |
| ProductHandler.AddProductToShopify | src/handlers/product_handler.py:33-85 | every run makes each kind of call at most once, in the order create, image lookup, image upload, collection lookup, collection creation, association |
| ProductHandler.ChainStopsAtCreate | src/handlers/product_handler.py:50-54 | without a title the handler raises before any call; when creation fails the result is `None` and no other call is made |
| ProductHandler.AfterCreateStops | src/handlers/product_handler.py:56-77 | after creation, no image URL gives `None` with only the lookup called, a product without an `id` raises before the upload, and the later failures stop as in the upload step |
| ProductHandler.AfterImageStops | src/handlers/product_handler.py:62-77 | a failed upload gives `None` with only the upload called; after a successful one, the collection step's failures stop the chain |
| ProductHandler.AfterUploadStops | src/handlers/product_handler.py:67-77 | no collection found or made gives `None` with no association; a failed association gives `None` with the association as the last call |
| ProductHandler.ChainStopsAtFirstFailure | src/handlers/product_handler.py:56-77 | once the product exists, no image URL, a failed upload or no collection each give `None` with no call after that step, a failed association gives `None` with the association as the last call, and a product without an `id` raises before the upload |
| ProductHandler.SuccessNeedsEveryStep | src/handlers/product_handler.py:50-85 | a product comes back only if it was created, its image URL resolved, the image attached, a collection found or made with an id and the association made; the calls start with the creation and end with the association, and the URL is built from the product's handle |
| ProductHandler.AsWrittenNeverAdds | src/handlers/product_handler.py:62-65 | with the service's `upload_product_image` as written, no run ever returns a product, and no call after the image upload is made |
| ProductHandler.AsWrittenStopsAtUpload | src/handlers/product_handler.py:56-65 | once the product exists, the as-written chain stops at the image upload |
| Interactions.SweepExact | src/cogs/image_product_command.py:95-101 | the sweep keeps exactly the entries whose timestamp is not before now minus 15 minutes, with their values unchanged; the kept keys are all keys minus the expired ones; a second sweep at the same time removes nothing |
| Interactions.SurvivesSweep | src/cogs/image_product_command.py:95-98 | an interaction cached at time t survives a sweep at `now` if and only if `now <= t + 15 minutes` |
| Interactions.InteractionCache.constructor | src/cogs/image_product_command.py:60 | the cache starts empty |
| Interactions.InteractionCache.Insert | src/cogs/image_product_command.py:172-173 | the cache becomes the old cache with the interaction id mapped to the new entry |
| Interactions.InteractionCache.Get | src/cogs/image_product_command.py:367-368 | a lookup finds an entry if and only if the id is cached, and then it is that id's entry |
| Interactions.InteractionCache.Remove | src/cogs/image_product_command.py:296-298 | the cache becomes the old cache without that id, whether or not the id was there |
| Interactions.InteractionCache.SetMessageId | src/commands/image_product_command.py:413-414 | a cached entry gets the sent message's id and nothing else changes; an uncached id leaves the cache unchanged |
| Interactions.InteractionCache.Sweep | src/cogs/image_product_command.py:95-102 | the loop that deletes the expired ids one at a time leaves exactly the swept cache; it returns the number of expired ids, and the kept plus the removed entries make up the old cache |
| Interactions.SweptFrom | src/cogs/image_product_command.py:96-101 | deleting exactly the expired ids gives the swept map |
| Interactions.SweptSize | src/cogs/image_product_command.py:96-102 | the swept map and the expired ids together account for every entry, so the logged count is the number of entries removed |
| Interactions.ChannelThenDm | src/cogs/image_product_command.py:394-449 | when a channel id is set and resolving the bot's member raises, the follow-up fails with no tier tried and no direct message; otherwise the channel is tried if and only if a channel id is set, it is a text channel and the bot may send there; delivery through the channel happens if and only if that send succeeded; otherwise the direct message is tried; at most these two tiers are tried, in that order; a delivery is always by the last tier tried; this part never stops on an HTTP error |
| Interactions.FollowupCogs | src/cogs/image_product_command.py:366-454 | without a cached interaction nothing is tried; otherwise the original interaction is tried first; delivery through it happens if and only if that send succeeds; the chain stops if and only if that send gives an HTTP error other than 10062 (Unknown Interaction), and then nothing else is tried |
| Interactions.FollowupLegacy | src/commands/image_product_command.py:387-456 | without a cached interaction nothing is tried; delivery through the original interaction happens if and only if its send succeeds; any Discord error there, HTTP errors included, falls through to the channel, so the chain never stops early |
| Interactions.FollowupOrder | src/cogs/image_product_command.py:357-364 | in both variants the tiers are tried in strictly increasing order, at most three of them, and a delivery is always by the last tier tried, so a message is never sent twice |
| Interactions.UnresolvedMemberEndsFollowup | src/cogs/image_product_command.py:394-459 | in both variants, once the first tier falls through, a raise while resolving the bot's member ends the follow-up as failed after the interaction tier alone |
| Interactions.ChannelNeedsPermission | src/cogs/image_product_command.py:397-417 | when the channel is not a text channel the bot may send to, neither variant tries the channel |
| Interactions.VariantsAgreeElsewhere | src/commands/image_product_command.py:393-400 | the two variants give the same outcome and the same tiers tried, except after an HTTP error other than 10062 on the original interaction |
| ImageProductCog.CachedOf | src/cogs/image_product_command.py:165-171 | the cached interaction holds the invoking user, the prompt and the time of the command |
| ImageProductCog.GenerateNeedsCredit | src/cogs/image_product_command.py:119-126 | with fewer than one credit read, `/dream` answers "not enough credits" and changes nothing, in both the original and the corrected order |
| ImageProductCog.GenerateDeductsFirst | src/cogs/image_product_command.py:136-174 | the cache and the image queue change only after a credit check that passed and a deduction that succeeded; after it, the ledger is the debited one, the interaction is cached with its prompt and time, and the first notice reports the balance read afterwards; the product queue is never touched |
| ImageProductCog.GenerateQueues | src/cogs/image_product_command.py:175-187 | the request is reported queued if and only if the credit check passed, the deduction succeeded and the image queue had room; then the job `{interaction_id, prompt}` is at the tail of the image queue |
| ImageProductCog.GenerateDebitsWhenBusy | src/cogs/image_product_command.py:136-187 | as written, when the image queue is full the user is told the bot is busy, nothing is queued, yet the balance has dropped by one and the interaction stays cached |
| ImageProductCog.CheckedBusyCostsNothing | src/cogs/image_product_command.py:136-187 | with the capacity check before the deduction, a busy answer leaves the ledger, the cache and both queues unchanged; when there is room it behaves exactly like the original; a request is queued if and only if no refusal notice was sent |
| ImageProductCog.CreateProductTitleWords | src/cogs/image_product_command.py:301-306 | the title ends with " Artist Trading Card (ATC) by " and the user name; the words before that are the prompt's first eight words (all of them when fewer), each title-cased |
| ImageProductCog.ProductDataFor | src/cogs/image_product_command.py:237-248 | the product data has the user as vendor, the tag `Artist-<user>`, the uploaded image's URL and the price 6.99, and no product type or inventory quantity |
| ImageProductCog.GenerateAndUpload | src/cogs/image_product_command.py:321-349 | a URL comes back if and only if the generator returned a first image with a URL, its download gave content and storage accepted the upload; the URL is the storage's public URL for `ATC_<uuid>.jpg` |
| ImageProductCog.UploadedAsJpeg | src/cogs/image_product_command.py:340-341 | no object is sent when the S3 client cannot be created; otherwise the object stored for a generated image has the key `ATC_<uuid>.jpg`, the JPEG content type and a public-read ACL |
| ImageProductCog.UploadedUrlNeedsNoLookup | src/cogs/image_product_command.py:240 | the URL put into the product data is already a valid URL, so the product handler uses it as it is without asking storage |
| ImageProductCog.ProcessImageTouchesProductsOnly | src/cogs/image_product_command.py:211-263 | handling one image job leaves the ledger, the cache and the image queue unchanged and adds at most one product item |
| ImageProductCog.AfterUploadTouchesProductsOnly | src/cogs/image_product_command.py:216-254 | whatever the upload gave, the rest of the job changes at most the product queue, by at most one item |
| ImageProductCog.ImageCycleConsumes | src/cogs/image_product_command.py:197-209 | a cycle is idle if and only if the image queue is empty, and then nothing changes; otherwise it removes the head of the image queue for good and adds at most one product item, leaving the ledger and the cache alone |
| ImageProductCog.ImageCycleChainsToProducts | src/cogs/image_product_command.py:216-254 | the product queue changes if and only if the upload gave a URL, the interaction is still cached and the product queue has room; the new item carries the same interaction id, the cached user name and the product data for prompt, user and URL; a failed upload sends exactly one "failed" follow-up |
| ImageProductCog.ProductCycleDropsInteraction | src/cogs/image_product_command.py:265-299 | for any image upload, a cycle is idle if and only if the product queue is empty, and then nothing changes and no service is called; otherwise the head is consumed and, whatever Shopify answers, its interaction is removed from the cache; the ledger and the image queue stay as they were and the services are called in chain order |
| ImageProductCog.NoFollowupAfterProduct | src/cogs/image_product_command.py:294-298 | once the product cycle has processed an item, a follow-up for its interaction finds nothing and tries no tier |
| ImageProductCog.ProductCycleStopsAtUpload | src/cogs/image_product_command.py:265-299 | with the service's image upload as written, a product cycle calls at most the image lookup, the product creation and the image upload, and never a collection call, whatever Shopify answers |
| ImageProductCog.ImageProductCommand.constructor | src/cogs/image_product_command.py:39-60 | the cog uses the bot's ledger and storage, has two fresh empty queues of capacity 50 and 100, and starts with an empty cache |
| ImageProductCog.ImageProductCommand.GenerateProduct | src/cogs/image_product_command.py:113-195 | the command leaves the ledger, the cache and the image queue in the state of the `/dream` step as written, and sends its notices; the claim expiries are untouched |
| ImageProductCog.ImageProductCommand.GenerateProductChecked | src/cogs/image_product_command.py:113-195 | the command with the capacity check first leaves the state of the corrected step |
| ImageProductCog.ImageProductCommand.ImageCycle | src/cogs/image_product_command.py:197-209 | one run of the image loop performs exactly the image-cycle step |
| ImageProductCog.ImageProductCommand.ProcessImage | src/cogs/image_product_command.py:211-263 | handling one dequeued image job performs exactly the image-job step and sends its follow-ups |
| ImageProductCog.ImageProductCommand.ProductCycle | src/cogs/image_product_command.py:265-299 | one run of the product loop, with the service's image upload as written, performs exactly the product-cycle step and makes its service calls |
| ImageProductCog.ImageProductCommand.ProductCycleCorrected | src/cogs/image_product_command.py:265-299 | one run of the product loop with the corrected image upload performs exactly the product-cycle step for that upload |
| ImageProductCog.ImageProductCommand.ProductCycleWith | src/cogs/image_product_command.py:265-299 | for any given image upload, one run of the product loop performs exactly the product-cycle step for that upload |
| ImageProductCog.ImageProductCommand.CleanupCache | src/cogs/image_product_command.py:89-106 | one pass of the cleanup task leaves the swept cache and returns the number of expired interactions |
| ImageProductLegacy.ShortId | src/commands/image_product_command.py:204 | the short id is the first eight characters of the uuid text (all of it when shorter), a prefix of it |
| ImageProductLegacy.ParseCustomId | src/commands/image_product_command.py:232-238 | a custom id is rejected for its shape if and only if its split on `\|` does not have exactly three parts; otherwise the short id is the second part and the interaction id the integer the third part denotes, or the third part is not an integer |
| ImageProductLegacy.CustomIdParts | src/commands/image_product_command.py:209 | a built custom id splits into exactly the prefix, the short id and the decimal interaction id when the short id holds no `\|` |
| ImageProductLegacy.ParseCustomIdRoundTrip | src/commands/image_product_command.py:204-238 | parsing a custom id built from a short id with no `\|` recovers that short id and the interaction id |
| ImageProductLegacy.WrongPartsIffSeparators | src/commands/image_product_command.py:232-236 | the shape is rejected if and only if the custom id does not hold exactly two `\|` |
| ImageProductLegacy.ButtonsAreRouted | src/commands/image_product_command.py:526-529 | every button the cog builds is routed to the click handler when it arrives as a component interaction; a non-component interaction and a missing custom id are not routed |
| ImageProductLegacy.CreateProductData | src/commands/image_product_command.py:350-359 | the product has the user as vendor, the given image URL and the price 6.99, and its title is the prefix, " Artist Trading Card (ATC) by " and the user name |
| ImageProductLegacy.TitlePrefixWords | src/commands/image_product_command.py:342-348 | the title prefix is `Unique` when the prompt has no words; otherwise its words are the prompt's first two words (the only one when there is one), title-cased |
| ImageProductLegacy.GenerateWithoutCredits | src/commands/image_product_command.py:101-128 | `/generate` consults no credits: the interaction is cached either way, and the request is queued if and only if the image queue has room, as the job `{interaction_id, prompt}` at its tail; otherwise the queue is unchanged |
| ImageProductLegacy.ClickRejections | src/commands/image_product_command.py:214-252 | a click changes at most the product queue, and any answer other than "queued" changes nothing; a custom id without exactly two `\|` is rejected as invalid product data, or as invalid data when empty |
| ImageProductLegacy.ButtonClickQueues | src/commands/image_product_command.py:200-265 | clicking a button the cog built, while the prompt is still cached and the product queue has room, queues the item with the click's id, the original interaction id, the remembered image URL, the clicking user and the prompt |
| ImageProductLegacy.ProductCycleOnlyReports | src/commands/image_product_command.py:288-328 | a product cycle answers nothing if and only if the product queue is empty; otherwise it consumes the head and sends one follow-up; it changes neither the image queue, the image URL cache nor which interactions are cached, and an entry changes only by gaining the message id of a channel delivery |
| ImageProductLegacy.ImageProductCommand.constructor | src/commands/image_product_command.py:53-65 | the queue and cache set-up of lines 53-65: two empty queues of capacity 50 and 100 and empty caches |
| ImageProductLegacy.ImageProductCommand.GenerateProduct | src/commands/image_product_command.py:101-140 | the command performs exactly the `/generate` step |
| ImageProductLegacy.ImageProductCommand.CreateProductOptionsView | src/commands/image_product_command.py:200-212 | the image URL is remembered under the short id and the button's custom id is built from it |
| ImageProductLegacy.ImageProductCommand.HandleAddToShopify | src/commands/image_product_command.py:214-286 | the click handler performs exactly the click step |
| ImageProductLegacy.ImageProductCommand.ProductCycle | src/commands/image_product_command.py:288-328 | one run of the product loop performs exactly the product-cycle step |
| ImageProductLegacy.ImageProductCommand.CleanupCache | src/commands/image_product_command.py:82-94 | one pass of the cleanup task leaves the swept cache and returns the number of expired interactions |
| Startup.MissingVars | src/main.py:92-97 | a variable is reported missing if and only if it is required and unset or empty; the missing ones keep their declaration order |
| Startup.CheckEnvironment | src/main.py:97-101 | the check fails for a missing environment if and only if some required variable is unset or empty, with the message naming them joined by ", "; on success every required variable is set and non-empty and the application id is the integer `APPLICATION_ID` denotes; otherwise the id conversion fails |
| Startup.CompleteEnvironmentStarts | src/main.py:97-102 | an environment with every required variable set and a decimal `APPLICATION_ID` passes the check with that id |
| Startup.EmptyEnvironmentNamesAll | src/main.py:92-99 | with nothing set, every required variable is reported, in declaration order |
| Startup.CogModule | src/main.py:63-66 | an eligible file name gives the module `cogs.<name>`, and adding `.py` to the part after `cogs.` gives back the file name |
| Startup.CogModulesExactly | src/main.py:62-66 | every file that ends in `.py` and does not start with `_` is tried as a module, and every module tried comes from such a file |
| Startup.LoadAllCogs | src/main.py:60-69 | the loop tries exactly the eligible files' modules in directory order, and the loaded ones are those tried whose loading did not raise, in the same order, so one failure does not stop the rest |
| Startup.CloseServices | src/main.py:78-84 | every service is tried, in the order product handler, Backblaze handler, credit system, Shopify service; exactly those whose close does not raise are closed, in that order |
| Startup.EveryServiceCloses | src/main.py:79 | a service is among those closed if and only if its close does not raise |

## Left out

- Concurrency is not modelled. This covers asyncio tasks, `interaction_cache_lock` and `tasks.loop` scheduling, `cog_load`/`cog_unload` and cancellation. Each operation is one atomic step, and a loop body is one step per cycle.
- Sleeps are no-ops: the Redis retry delays, the WATCH retry pause, the FLUX backoff, the queue loops' 0.1 s and 1 s pauses and the 900 s sweep interval. The sweep interval and delays appear only as constants. The jitter of Shopify's `backoff.expo` decorator is not modelled; only its limit of four tries is.
- Discord is an answer per delivery tier. The texts of messages, embeds (`src/utils/embed_creator.py` is not part of this model), views and the deferred responses are not modelled. An exception raised by an ephemeral `followup.send` inside a command is not modelled. In the channel tier, a raise while resolving the bot's member (`fetch_member` in the live variant, `permissions_for(channel.guild.me)` with no member in the legacy one) is its own answer, `MemberUnresolved`. Both happen outside the tier's `try`, so the follow-up ends with no direct message. Which Discord errors `fetch_member` raises is not modelled.
- Interactions.FollowupLegacy: the legacy variant's `user.create_dm()` is folded into the direct-message outcome.
- `src/utils/logger.py` and every log line are left out. The exception is the success log lines that read `['id']` and so raise on a reply without one; those are modelled.
- FluxImageHandler.Submit: the success log line reads `result['images'][0]['url']` inside the `try` (`src/handlers/flux_image_handler.py:163-165`). An image without a `url` therefore raises and is retried. The model's images are URL strings, so it cannot express an image without one.
- `src/events/interaction_events.py` is not part of this model. It is stale code that builds `ProductHandler` with arguments its constructor does not take.
- Real Redis, S3/aioboto3, aiohttp and fal_client are oracles passed in as parameters. So are `uuid.uuid4()` and `datetime.utcnow()`.
- CreditLedger.CreditSystem.AddCredit: Redis `INCRBY` fails once a value would leave the 64-bit signed range, and `_execute_redis_operation` then returns `False`. The model's balances are unbounded integers, so that increment always succeeds. The same holds for CreditLedger.CreditSystem.BatchUpdateCredits and for the `DECRBY`/`INCRBY` pair of CreditLedger.CreditSystem.TransferCredits.
- CreditLedger.CreditSystem.DeductCredit: the WATCH loop in `deduct_credit` retries without bound. The model takes a finite sequence of conflicts, so a store that conflicts forever (a livelock) is not modelled.
- CreditLedger.CreditSystem.TransferCredits: the sender-watching loop of `transfer_credits` (`src/credit_system.py:233-247`) also retries without bound, and the model takes a finite sequence of conflicts there as well.
- ShopifyService.RequestOnce: a reply's body is always decoded JSON. A 200/201 reply with a non-JSON content type makes `response.json()` (`src/services/shopify_service.py:79`) raise `ContentTypeError`. That is an `aiohttp.ClientError`, so `backoff` retries it (lines 58-63). A malformed JSON body raises `JSONDecodeError`, which escapes `_request`. Neither is modelled.
- Floats are replaced by integers. The price 6.99 is held as 699 cents, and `f"{price:.2f}"` is rendered from cents. The Redis retry delay of 0.1 s is held as 100 ms.
- InMemoryQueue.Queue.GetStatistics: the float `last_operation_time` is not reported.
- InMemoryQueue.Queue.ProcessQueue: polling an open, empty queue is bounded by a `fuel` count of iterations. The handler of each item is abstract.
- FluxImageHandler.CountMatchesFuzzy: difflib's similarity ratio with cutoff 0.8 is abstracted as a predicate on words.
- Python's `str.strip`, `split`, `lower` and `title`, and the `\w` of `re.findall(r'\b\w+\b', ...)` in `determine_image_size` (`src/handlers/flux_image_handler.py:78`), are modelled on ASCII only. Other characters are treated as non-space, non-letter characters.
- Python's `int()` is modelled as optional sign plus decimal digits. Its leniency about surrounding whitespace, `+` signs and underscores is not modelled.
- `urlsplit` removes tab and newline characters from a URL, and strips leading C0 control characters and spaces; the model does neither.
- `urlsplit` raises `ValueError("Invalid IPv6 URL")` when the network location holds an unbalanced `[` or `]`; the model splits such a URL without raising. In `src/handlers/backblaze_handler.py:202-208` `_is_valid_url` has no `try`, so in the source that error escapes `get_file_url` instead of giving `False`.
- BackblazeHandler.GetFileUrl: when creating the S3 client fails before `s3_client` is bound, evaluating `except s3_client.exceptions.NoSuchKey` (`src/handlers/backblaze_handler.py:121`) raises `UnboundLocalError`, which escapes `get_file_url`; the model answers `None` instead. The caller's `except Exception` (`src/handlers/product_handler.py:114-141`) turns both into the same failed lookup.
- ProductHandler.Render: a list or an object renders as the empty string, where Python's f-string gives its `repr`.
- ShopifyService.Extract: a truthy reply that is not an object yields `None`, where Python's `.get` on it raises `AttributeError`.
- ImageProductCog.ProductDataFor: the product description is only the first line of `_get_product_description`, with an ASCII dash. The rest of the text is a constant with no effect on behaviour.
- ImageProductLegacy.CreateProductData: the same description shortening applies.
- The legacy variant's image loop is not modelled. That covers `process_image_generation_queue`, `_process_image_generation` and `_generate_and_upload_image` in `src/commands/image_product_command.py`. The live variant's image cycle is modelled (`ImageProductCog.OnImageCycle`). Of the legacy loop, only the button it offers is modelled (`CreateProductOptionsView`).
- No legacy cog can be built in the source. Its `__init__` reads `bot.BACKBLAZE_KEY_ID` (`src/commands/image_product_command.py:41`), which `DiscordShopifyBot` does not define (`src/main.py:19-40`), so it raises `AttributeError` before the queues are made. Even with those attributes, `BackblazeHandler.__init__` (`src/handlers/backblaze_handler.py:22`) does not accept `key_id`. `load_all_cogs` only scans `cogs/` (`src/main.py:61`) anyway. Every `ImageProductLegacy` member therefore models the cog as if its construction had succeeded. `ImageProductLegacy.ImageProductCommand.constructor` models only the queue and cache set-up of lines 53-65.
- The legacy variant's handler set-up (lines 38-50), `queue_stats`, `_format_queue_stats`, `_create_product_confirmation_embed` and `on_ready` are left out. The handler set-up is the raising part above; the rest only format messages.
- ImageProductLegacy.OnProductCycle: `add_product_to_shopify(product_data)` lacks its `username` argument. The call therefore always raises `TypeError` before any service is contacted, and that is what the model does.
- `src/main.py`: the bot's constructor, `setup_hook`, `initialize_services`, `tree.sync`, `bot.start` and `on_command_error` are left out. They only call into the services' own initialisation and Discord.
- CreditCommands: the commands' `except Exception` replies and the `command_error` handler's invoke-error branch are not modelled. Every ledger call those commands make catches store errors itself and answers a default (`False`, `0` or `(False, 0)`), so the branches cannot be reached. The `CheckFailure` branch is modelled as `PermissionDenied`.
- ShopifyService.CollectionByTitle: a truthy reply that is not an object yields `None`, where Python's `.get` on it raises `AttributeError`.
- ShopifyService.CollectionByTitle: a reply whose `custom_collections` entry is truthy but not a list, such as a string or an object, is treated like an empty list. Python would index it instead.

## Findings

| source | as written | input that shows it | evidently intended | confidence | as-written member | corrected member |
|---|---|---|---|---|---|---|
| src/services/shopify_service.py:348-356 | `_is_valid_url` returns `all([result.scheme, result.netloc]).env`, an attribute access on a `bool`, which raises `AttributeError`; `upload_product_image` has no handler, so the error propagates to `_upload_image_to_shopify`, whose `except Exception` (`src/handlers/product_handler.py:156-170`) returns `None`; every image upload fails and `add_product_to_shopify` stops at the upload step | any product data with a valid image URL, e.g. `https://bucket.s3.us-west-004.backblazeb2.com/ATC_1.jpg` | return `all([scheme, netloc])`, so a valid URL is uploaded | not executed | ShopifyService.UploadAlwaysRaisesAsWritten | ShopifyService.UploadSucceedsCorrected |
| src/credit_system.py:152-161 | `set_last_claim` passes `ex=86400` to `_execute_redis_operation(operation, *args)`, which accepts no keyword arguments, so the call raises `TypeError`, is caught and returns `False`; no claim marker is ever written and `/claim` grants 5 credits every time | two `/claim` by the same user at `t` and `t + 60` both grant 5 credits | write the marker with a 24-hour expiry, so a second claim within a day is refused with the time left | not executed | CreditCommands.ClaimEveryTime | CreditCommands.DailyClaimOnceCorrected |
| src/cogs/image_product_command.py:136-187 | `/dream` deducts the credit before enqueueing; when the image queue is full, `QueueFullError` is answered "too many requests" without a refund | a user with 1 credit while the image queue holds 50 items | a request the queue refuses costs nothing (check capacity first, or refund) | not executed | ImageProductCog.GenerateDebitsWhenBusy | ImageProductCog.CheckedBusyCostsNothing |

In the first row, the whole chain as written is stated by `ProductHandler.AsWrittenNeverAdds`, and the corrected upload is `ShopifyService.UploadProductImage`; the product loop as it runs uses the upload as written (`ImageProductCog.ImageProductCommand.ProductCycle`, `ImageProductCog.ProductCycleStopsAtUpload`) and `ImageProductCog.ImageProductCommand.ProductCycleCorrected` uses the corrected one. In the second row, the store call as written is `CreditLedger.CreditSystem.SetLastClaim`, and the corrected command is `CreditCommands.CreditCommandsCog.ClaimCorrected`. In the third row, the corrected command is `ImageProductCog.ImageProductCommand.GenerateProductChecked`.
