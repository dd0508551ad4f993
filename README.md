# Instagram inbox backend: webhook ingestion and bounded conversation cache

This project is a Dafny model of the part of the Instagram inbox backend that
ingests Meta webhooks and keeps a short, expiring history per conversation.
It covers three parts.

- **The conversation cache** (`cache.dfy`). This is `CacheService`, a class over
  a Redis-like store. The store maps `conv:{businessAccountId}:{clientAccountId}`
  to an oldest-first list of compact records `{r, t, ts}` and an expiry time.
  - An append pushes at the tail, keeps only the last 20 records (`LTRIM -20 -1`)
    and resets the expiry to 7200 seconds.
  - A bulk set deletes the key and then writes at most the last 20 records.
  - Reads see only live keys.
  - Each method is proved against a function on the store (`Appended`,
    `Replaced`, `Deleted`). The facts the source relies on are proved about
    those functions. One such fact: any run of appends keeps exactly the last
    20 records pushed.
- **The webhook route** (`webhook.dfy`).
  - The GET verification handshake.
  - The POST walk over `entry[]` and `messaging[]`: foreign objects are
    dropped, events without text are skipped, and the client is picked by the
    echo flag.
  - `processIncomingMessage`: backfill on a cache miss, then append with the
    right role.
  - `populateCacheFromAPI`: find the client's conversation, map the remote
    messages to records and reverse them to oldest-first.
  - The POST loop is a `method` with nested `while` loops. It is proved
    against a function that says what a whole batch does to the store.
- **The gateway client** (`instagram.dfy`). This is `InstagramService`:
  - the memoised `/me` identity, as a one-field state machine;
  - the data shaping of `getConversations` and `getMessages`: the
    two-participant filter, `otherParticipant`, request parameters, the
    message projection, and the safe paging that never carries the
    token-bearing `next`/`previous` URLs.

`seqs.dfy` holds the JavaScript array combinators the source uses (`filter`,
`map`, `find`, `reverse`). `wrappers.dfy` holds `Option`, which models
`undefined`, and JavaScript truthiness of optional strings.

Clocks and remote calls are parameters:
- `now` is the store's clock, in seconds.
- `ts` is `Date.now()`.
- `parseTime` is `new Date(..).getTime()`.
- Every HTTP response is given as a value. For the backfill this is a
  `Gateway`: the conversation list and, per conversation id, the message
  page, where either may be missing because the request failed.

Two behaviours of the code are worth knowing:
- **A thrown error stops the batch.** One `try` wraps the whole POST loop
  (`backend/src/routes/webhook.ts:38-74`). So reading a missing
  `sender`/`recipient` of an event that has text, or a missing `entry` array,
  throws a `TypeError`. That error abandons the rest of the batch and keeps
  the writes already made. `HandleEvent` models this as `Stopped`, and so does
  `HandlePayload`; `RunEvents` and `RunEntries` stop exactly when some event
  throws.
- **Keys can collide.** `getKey` is not injective when a business id
  contains `:`. `GetKeyCollision` exhibits a collision and `GetKeyInjective`
  proves injectivity for colon-free business ids.

## Model

| member | source | states |
|---|---|---|
| Cache.GetKey | backend/src/services/cache.ts:13-15 | the key is as long as the prefix, both ids and one separator together; its layout is `GetKeyLayout` |
| Cache.GetKeyLayout | backend/src/services/cache.ts:5-15 | the key is exactly `conv:` + business id + `:` + client id: its length and each slice |
| Cache.GetKeyInjective | backend/src/services/cache.ts:13-15 | two pairs with colon-free business ids that give the same key are the same pair |
| Cache.GetKeyCollision | backend/src/services/cache.ts:13-15 | a business id containing `:` lets two different pairs share a key |
| Cache.KeepLastIsSuffix | backend/src/services/cache.ts:65-68 | keeping the last records gives a suffix of length min(n, 20) |
| Cache.KeepLastAppend | backend/src/services/cache.ts:47-48 | trimming after every push equals trimming once at the end |
| Cache.Appended | backend/src/services/cache.ts:41-52 | after an append the live list is the last 20 of the old live list plus the message, the TTL is 7200, and every other key is unchanged |
| Cache.StaysWellFormed | backend/src/services/cache.ts:41-76 | append, bulk set and delete keep every stored list non-empty and at most 20 long |
| Cache.AppendedLast | backend/src/services/cache.ts:41-52 | the appended message is last; the length is n+1 below 20 and 20 otherwise; an absent or expired key becomes the one-element list |
| Cache.Replaced | backend/src/services/cache.ts:59-76 | a bulk set replaces the list with the last 20 given records with no merge; an empty set leaves the key absent; otherwise the TTL is 7200; other keys are unchanged |
| Cache.Deleted | backend/src/services/cache.ts:105-107 | the key is absent afterwards and every other key is unchanged |
| Cache.AppendedAllPushes | backend/src/services/cache.ts:41-52 | a run of appends reads as pushing each message and trimming in turn |
| Cache.PushedAllKeepsLast | backend/src/services/cache.ts:47-48 | pushing and trimming message by message equals keeping the last 20 of the concatenation |
| Cache.AppendedAllKeepsLast | backend/src/services/cache.ts:41-52 | after any run of appends the list is the last 20 of the old list followed by the new messages |
| Cache.ManyAppendsKeepLastTwenty | backend/src/services/cache.ts:41-52 | after 20 or more appends the list is exactly the last 20 messages appended, in order |
| Cache.CacheService.constructor | backend/src/services/cache.ts:117 | the service starts with an empty store |
| Cache.CacheService.HasConversation | backend/src/services/cache.ts:20-23 | true exactly when the pair's key is present and not expired |
| Cache.CacheService.GetMessages | backend/src/services/cache.ts:29-34 | returns the stored oldest-first list, at most 20 long, and the empty list for an absent or expired key |
| Cache.CacheService.AddMessage | backend/src/services/cache.ts:41-52 | the new store is `Appended` of the old one, and the store stays well formed |
| Cache.CacheService.SetMessages | backend/src/services/cache.ts:59-76 | the new store is `Replaced` of the old one, and the store stays well formed |
| Cache.CacheService.AddBusinessMessage | backend/src/services/cache.ts:81-88 | appends a record with role business, the given text and the given timestamp |
| Cache.CacheService.AddUserMessage | backend/src/services/cache.ts:93-100 | appends a record with role user, the given text and the given timestamp |
| Cache.CacheService.DeleteConversation | backend/src/services/cache.ts:105-107 | the new store is `Deleted` of the old one |
| Cache.CacheService.GetTtl | backend/src/services/cache.ts:112-114 | the seconds left for a live key, and -2 exactly when the key is absent or expired |
| Seqs.Filter | backend/src/services/instagram.ts:69-71 | keeps exactly the elements that satisfy the predicate, and is no longer than its input |
| Seqs.FilterAppend | backend/src/services/instagram.ts:69-71 | filtering distributes over concatenation, so order is kept |
| Seqs.MapAppend | backend/src/services/instagram.ts:115-120 | mapping distributes over concatenation |
| Seqs.FindFirst | backend/src/services/instagram.ts:76-78 | the first index whose element satisfies the predicate, and none exactly when no element does |
| Seqs.Reverse | backend/src/routes/webhook.ts:150 | element i of the result is element n-1-i of the input |
| Instagram.OtherParticipant | backend/src/services/instagram.ts:75-78 | the first participant whose username differs from the account's, and none exactly when every username matches |
| Instagram.IsTwoParty | backend/src/services/instagram.ts:69-71 | a kept conversation has exactly two participants; one whose participant list is missing is never kept |
| Instagram.ConversationList | backend/src/services/instagram.ts:68-86 | one item per two-participant conversation, never more than the raw list |
| Instagram.ConversationListItemAt | backend/src/services/instagram.ts:68-86 | item i is the i-th two-participant conversation with the same id, time and two participants, and with `otherParticipant` picked by username |
| Instagram.ConversationListAppend | backend/src/services/instagram.ts:68-86 | the listing preserves the response's order |
| Instagram.TwoPartyConversationsListed | backend/src/services/instagram.ts:68-86 | every two-participant conversation of the response appears in the listing with its id and participants |
| Instagram.MessageParams | backend/src/services/instagram.ts:97-105 | the keys are `fields` and `limit`, plus the direction's name exactly when the cursor is truthy; that key maps to the cursor |
| Instagram.MapMessages | backend/src/services/instagram.ts:112-120 | same length and order; id, created time, sender and text are copied |
| Instagram.ToSafePaging | backend/src/services/instagram.ts:122-133 | `hasMore` exactly when `next` or `cursors.after` is truthy; `before` and `after` come from the cursors |
| Instagram.SafePagingHidesUrls | backend/src/services/instagram.ts:122-133 | the safe paging does not depend on the `next`/`previous` URL text |
| Instagram.MessagesPage | backend/src/services/instagram.ts:107-134 | the messages are `MapMessages` of `data`, or of the empty list when `data` is missing; the paging is the safe paging |
| Instagram.InstagramService.constructor | backend/src/services/instagram.ts:26 | no identity is stored yet |
| Instagram.InstagramService.GetMe | backend/src/services/instagram.ts:37-45 | stores and returns the `/me` answer, with one request issued |
| Instagram.InstagramService.EnsureUserInfo | backend/src/services/instagram.ts:47-52 | asks `/me` only when no identity is stored; afterwards an identity is stored and it is returned |
| Instagram.InstagramService.GetConversations | backend/src/services/instagram.ts:54-87 | resolves the identity through the memo, then returns the listing for that identity's username |
| Webhook.VerifyWebhook | backend/src/routes/webhook.ts:13-27 | status 200 with the challenge as body exactly when mode is `subscribe` and the token matches; 403 `Forbidden` otherwise |
| Webhook.RejectionRevealsNothing | backend/src/routes/webhook.ts:20-26 | a rejected handshake's reply depends on neither the token nor the challenge sent |
| Webhook.HasText | backend/src/routes/webhook.ts:52-59 | an event has text exactly when its message and the message's text are present and the text is not empty |
| Webhook.IsEcho | backend/src/routes/webhook.ts:53 | an event is an echo exactly when its message carries `is_echo` set to true; a missing message or flag is not an echo |
| Webhook.ClientId | backend/src/routes/webhook.ts:52-64 | the recipient's id for an echo and the sender's otherwise; none when that party is missing |
| Webhook.RoleOf | backend/src/routes/webhook.ts:97-104 | business exactly for echoes |
| Webhook.FindConversation | backend/src/routes/webhook.ts:127-130 | the first conversation whose participants include the client, and none exactly when no conversation does |
| Webhook.ConversationId | backend/src/routes/webhook.ts:127-137 | the id of the first listed conversation that includes the client; none when the list failed or nothing matched |
| Webhook.ToCachedRecord | backend/src/routes/webhook.ts:144-149 | role user exactly when the sender is the client; text is `[attachment]` for a missing or empty message; the timestamp is the parsed creation time |
| Webhook.ToCachedRecords | backend/src/routes/webhook.ts:144-150 | the API's newest-first page mapped and reversed: record i is from message n-1-i |
| Webhook.FetchHistory | backend/src/routes/webhook.ts:127-150 | a history exists exactly when a conversation matched and its page was fetched; record k then comes from raw message n-1-k of that page |
| Webhook.Backfilled | backend/src/routes/webhook.ts:124-157 | a failed or unmatched lookup writes nothing; otherwise the pair's list is the last 20 fetched records, with TTL 7200, and an empty page leaves the key absent; only the pair's key can change |
| Webhook.Processed | backend/src/routes/webhook.ts:84-108 | afterwards the pair's list is non-empty and at most 20 long, ends with the new record, has TTL 7200, and no other key changed |
| Webhook.BackfillOnlyOnMiss | backend/src/routes/webhook.ts:90-95 | on a cache hit the gateway is irrelevant and processing is a plain append |
| Webhook.MissWithoutHistory | backend/src/routes/webhook.ts:90-104 | on a miss with nothing fetched, the conversation holds just the new record |
| Webhook.MissWithHistory | backend/src/routes/webhook.ts:90-104 | on a miss with history, the conversation is the last 20 of the history followed by the new record |
| Webhook.UnknownClientStillAppends | backend/src/routes/webhook.ts:127-135 | a client in no listed conversation gets no backfill, and the record is still appended |
| Webhook.HandleEvent | backend/src/routes/webhook.ts:52-68 | an event without text changes nothing; the batch stops exactly when the event has text and the client party is missing, with the store unchanged; otherwise the record for the client ends the pair's list |
| Webhook.RunEvents | backend/src/routes/webhook.ts:51-69 | the walk over one entry's events stops exactly when one of them throws |
| Webhook.RunEntries | backend/src/routes/webhook.ts:48-70 | the walk over the entries stops exactly when some event of some entry throws |
| Webhook.HandlePayload | backend/src/routes/webhook.ts:38-74 | a non-`instagram` object changes nothing; a missing `entry` changes nothing |
| Webhook.TextlessEventsSkipped | backend/src/routes/webhook.ts:51-59 | removing the events without text from a batch does not change its outcome |
| Webhook.TextlessBatchUnchanged | backend/src/routes/webhook.ts:51-59 | a batch of events that all lack text leaves the store as it was |
| Webhook.PopulateCacheFromApi | backend/src/routes/webhook.ts:124-157 | the new store is `Backfilled` of the old one |
| Webhook.ProcessIncomingMessage | backend/src/routes/webhook.ts:84-116 | the new store is `Processed` of the old one; the returned context is the pair's list as read back |
| Webhook.HandlePost | backend/src/routes/webhook.ts:33-75 | replies 200, and the store ends as `HandlePayload` of the old store |

## Left out

- The Redis connection and its retry strategy are not modelled. `backend/src/services/redis.ts` is not part of this model, and the store is a map field.
- Pipeline atomicity and concurrency are not modelled. Each cache call is one sequential step, so the race between two webhooks for the same conversation is not captured.
- Expiry is lazy, as in Redis. An expired entry stays in the map, but every read treats it as absent, and a push onto it starts a fresh list.
- Cache.CacheService.GetTtl: the Redis answer -1 (key without expiry) is not modelled, because every write in the cache sets an expiry.
- Express routing and axios are not modelled. This covers `res.sendStatus(200)` before the processing, array-valued query parameters, and the access-token query parameter. Responses are parameters, and a failed request is a missing response.
- JSON serialisation of records is not modelled. Records are stored as values, so the round trip is taken as lossless.
- Clocks are not modelled. `Date.now()` and `new Date(..).getTime()` are the parameters `ts` and `parseTime`, and the store's clock is `now`. One `now` and one `ts` serve a whole batch.
- Webhook.Gateway: the conversation list the backfill uses is given directly. The memoised identity lookup inside `getConversations` is modelled only in `InstagramService.GetConversations`, and is not threaded through the webhook.
- Webhook.FetchHistory: the page request is taken to be the one with no cursor and limit 20. The request parameters themselves are `Instagram.MessageParams`.
- A missing `data` array in the conversation list response is not modelled. The raw list is a sequence.
- Entry ids are taken to be present strings.
- A sender or recipient object without an `id` is not modelled. In the code it yields `undefined`, so the append lands under the key `conv:{business}:undefined` and the batch goes on. `Party.id` is always a string.
- `null` elements of `entry[]` or `messaging[]` are not modelled. In the code reading them throws and stops the batch. The payload's sequences hold only well-shaped entries and events.
- Configuration loading is not modelled, and neither is the exit on a missing token (`backend/src/config/index.ts`). Only `cacheTTL` = 7200 and the verify token, which is a parameter, are used.
- Logging, the frontend, the conversations route and `main.py` are not modelled.
- Attachments and shares on messages are not modelled, because the public message shape built in `getMessages` never fills them.
- The AI-agent reply, which is a commented-out TODO, is not modelled.
