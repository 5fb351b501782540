# Chat server core in Dafny

This project models the server-side message logic and the string and number helpers of a
small chat web application. Users create conversations and exchange text or image-style
messages with a generative-AI model. The model covers:

- the retry wrapper around the model call (`callGeminiWithRetry`), with exponential backoff
  on "service overloaded" (503) and "rate limited" (429) failures;
- how `sendMessage` builds the assistant's reply. This covers the image prompt rewriting,
  the development-mode mock replies, the ordered classification of errors in its `catch`
  block, and the fallback templates (`getFallbackResponse`);
- the development-mode in-memory store: two arrays, `conversations` and `messages`. The
  handlers `getConversations`, `getMessages`, `createConversation`, `sendMessage` and
  `deleteConversation` read them, append to them, or filter and reassign them;
- the helpers `truncateText`, `generateConversationTitle`, `isValidUUID`, the bucketing of
  `formatTimestamp`, and `getDeviceType` / `isMobileDevice`.

Some inputs of the original are parameters here:

- The AI service is an oracle `gemini(prompt, k)`, giving the outcome of attempt `k`.
- The random template index `Math.floor(Math.random() * 3)` is `pick < 3`.
- Identifiers from `uuidv4()` are arguments.
- Creation times are integer milliseconds.
- The locale's date text and the window width are arguments.
- Waits are recorded in a sequence instead of slept.

Modules:

- `Wrappers` (`Option`).
- `Strings`: substring search for `includes`, and decimal rendering of naturals.
- `Sequences`: order-preserving `Filter`, and a stable insertion sort `SortBy`. ECMAScript
  2019 requires `Array.prototype.sort` to be stable; descending order is the ascending sort
  on the negated key.
- `Gemini`: the retry loop.
- `Replies`: reply construction.
- `Utils`: the helpers.
- `ChatStore`: the store, as class `DevStore` with two sequence fields.

The retry loop is modelled as the code behaves, not as its own comment describes it. The
comment at `src/server/trpc.ts:88` says "If it's the last attempt or a non-retryable error,
throw". The code under it (`src/server/trpc.ts:89-91`) throws only when
`attempt === maxRetries`. So a failure other than 503 or 429 before the last attempt does not
end the loop: the next attempt follows at once, with no wait. Only the last attempt's failure
is rethrown, and "Max retries exceeded" (`src/server/trpc.ts:94`) is reached only when
`maxRetries < 1`, so that no attempt runs. `Gemini.CallGeminiWithRetry`,
`Gemini.ServerErrorThenAnswer` and `Gemini.ServerErrorThenOverloaded` state this behaviour.

## Model

| member | source | states |
|---|---|---|
| Gemini.CallGeminiWithRetry | src/server/trpc.ts:59-95 | At most `maxRetries` attempts, and none only when `maxRetries < 1`, which is the only case that rejects with "Max retries exceeded". Every attempt before the last one made failed. Resolves exactly when the last attempt succeeded, with that attempt's text. Any other rejection happens at attempt `maxRetries` and carries exactly that attempt's error. The recorded waits are `Backoff` of the attempts made. |
| Gemini.ServerErrorThenAnswer | src/server/trpc.ts:79-92 | A 500 failure on attempt 1 followed by success resolves on attempt 2, with no wait in between. A non-retryable error is not propagated early. |
| Gemini.ServerErrorThenOverloaded | src/server/trpc.ts:79-92 | A 500 on attempt 1, a 503 on attempt 2 and then an answer give 3 attempts and a single wait of 2000 ms, the one attempt 2 earns. |
| Gemini.Backoff | src/server/trpc.ts:79-85 | The waits before attempt n: at most one per attempt before the last, and none after the final attempt. |
| Gemini.BackoffBelow | src/server/trpc.ts:81 | Every wait before attempt n is shorter than `baseDelay·2^(n−1)`. |
| Gemini.BackoffIncreasing | src/server/trpc.ts:79-85 | With a positive base delay, successive waits strictly increase. |
| Gemini.BackoffAllRetryable | src/server/trpc.ts:79-85 | When attempts 1..n−1 all fail with 503 or 429, the waits are exactly `baseDelay·2^i` for i = 0..n−2. |
| Gemini.BackoffWaitFollows | src/server/trpc.ts:79-85 | A 503 or 429 failure of any attempt k before attempt n is followed by the wait `baseDelay·2^(k−1)`, whatever the other attempts did. |
| Gemini.BackoffWaitsExplained | src/server/trpc.ts:79-92 | Every wait follows a 503 or 429 failure of some earlier attempt k and lasts `baseDelay·2^(k−1)`: no other failure is waited out. |
| Gemini.BackoffNoneRetryable | src/server/trpc.ts:79-92 | When no attempt before n failed with 503 or 429, there is no wait at all. |
| Strings.Contains | src/server/trpc.ts:348-354 | `s.includes(t)` holds exactly when `t` occurs in `s` at some offset. |
| Strings.NatToString | src/lib/utils.ts:14 | The rendering of a count is a non-empty digit string without a leading zero whose decimal value is the count. |
| Replies.FallbackResponse | src/server/trpc.ts:98-115 | An image request gets the single image template. A text request gets one of exactly three text templates, never the image one. Every reply quotes the prompt. |
| Replies.FallbackTemplatesDistinct | src/server/trpc.ts:102-110 | The three filled text templates and the image template are pairwise different, whatever the prompt. |
| Replies.ClassifyError | src/server/trpc.ts:333-363 | The catch cascade, both directions of each branch: 503; 429; 400; 401 or 403; no handled status and the message contains "SAFETY"; then "network" or "fetch"; anything else. An absent message contains nothing. |
| Replies.StatusTakesPrecedence | src/server/trpc.ts:334-347 | Two errors with the same handled status are classified alike, whatever their messages. |
| Replies.CatchReply | src/server/trpc.ts:330-364 | 503 and unrecognised errors get the fallback reply for the request's kind, which quotes the request. 429, 400, 401/403, safety and network errors get their fixed texts. |
| Replies.ImagePrompt | src/server/trpc.ts:322 | The image prompt is the fixed instruction followed by exactly the request. |
| Replies.ImageReply | src/server/trpc.ts:327 | The stored reply for an image request quotes the model's description. |
| Replies.MockReply | src/server/trpc.ts:297-313 | The development-mode image reply quotes the request, and so does the first of the three text replies. |
| Replies.ProductionReply | src/server/trpc.ts:314-364 | One to three attempts with the prompt for the request's kind, each earlier attempt failed, and waits from a 1000 ms base. On success: the text, wrapped for an image request. On failure: it happens at attempt 3, and the reply is the catch-block reply for that attempt's error. |
| Replies.GenerateReply | src/server/trpc.ts:295-364 | Development mode gives the mock reply with no model call and no wait. Otherwise there are one to three attempts, with the backoff waits. |
| Replies.OverloadedThreeTimes | src/server/trpc.ts:334-338 | A text request that meets 503 on every attempt makes 3 attempts, waits 1000 ms then 2000 ms, and gets a text fallback reply. |
| Replies.RateLimitedOnce | src/server/trpc.ts:79-85 | A text request that meets 429 once and then an answer makes 2 attempts, waits 1000 ms once, and gets the answer. |
| Sequences.Filter | src/server/trpc.ts:165-166 | Filtering keeps only elements satisfying the predicate and never lengthens the sequence. |
| Sequences.FilterCounts | src/server/trpc.ts:165-166 | Filtering keeps exactly the elements satisfying the predicate, each as often as it occurs. |
| Sequences.FilterFilter | src/server/trpc.ts:410-412 | Filtering by a stronger predicate after a weaker one is filtering by the stronger one alone. |
| Sequences.SortBy | src/server/trpc.ts:167-171 | Sorting keeps the length; permutation, order and stability are the two rows below. |
| Sequences.SortByCorrect | src/server/trpc.ts:167-171 | The sort returns a permutation of its input, ordered by the key. |
| Sequences.SortByStable | src/server/trpc.ts:167-171 | Elements with equal keys keep their relative order (ECMAScript 2019 stable sort). |
| ChatStore.ListConversations | src/server/trpc.ts:162-171 | Exactly the stored conversations of `demo-user-123`, each as often as stored, with `created_at` non-increasing. |
| ChatStore.ListMessages | src/server/trpc.ts:189-204 | Exactly the stored messages of the conversation and `demo-user-123`, each as often as stored, with `created_at` non-decreasing. |
| ChatStore.DevStore.constructor | src/server/trpc.ts:118-157 | The store starts with the two seeded conversations and the one seeded message, which belongs to a stored conversation. |
| ChatStore.DevStore.GetConversations | src/server/trpc.ts:162-171 | Returns the listing of the current conversations; changes nothing. |
| ChatStore.DevStore.GetMessages | src/server/trpc.ts:189-204 | Returns the listing of the current messages of the conversation; changes nothing. |
| ChatStore.DevStore.CreateConversation | src/server/trpc.ts:223-235 | Appends exactly one conversation with the given title, id, time and the demo user, and returns it. Messages are unchanged. |
| ChatStore.DevStore.SendMessage | src/server/trpc.ts:266-382 | Appends exactly two messages: the user's, with the input content, then the assistant's mock reply. Both carry the input conversation id and the demo user. Conversations are unchanged. |
| ChatStore.DevStore.DeleteConversation | src/server/trpc.ts:405-416 | Removes every message of the conversation and every conversation with that id, whoever owns them. Keeps all other entries in order. Always reports success. |
| ChatStore.DeleteRemovesConversation | src/server/trpc.ts:410-415 | After a deletion the conversation's thread is empty, and it is no longer listed. |
| ChatStore.DeleteKeepsOtherThreads | src/server/trpc.ts:410-412 | A deletion leaves every other conversation's thread exactly as it was. |
| ChatStore.DeleteKeepsOtherConversations | src/server/trpc.ts:413-415 | A deletion keeps every other conversation listed exactly when it was listed before. |
| ChatStore.DeletePreservesThreads | src/server/trpc.ts:410-415 | If every message belonged to a stored conversation before a deletion, it still does afterwards. |
| ChatStore.SendAppendsTurn | src/server/trpc.ts:376-378 | A turn at least as recent as the conversation's messages appears at the end of its thread, user message first. |
| ChatStore.SendKeepsOtherThreads | src/server/trpc.ts:278 | Sending to one conversation leaves every other thread unchanged. |
| ChatStore.SendPreservesThreads | src/server/trpc.ts:266-278 | Sending to a stored conversation keeps every message attached to a stored conversation. |
| ChatStore.CreateListsFirst | src/server/trpc.ts:228-235 | A conversation created after every stored one is listed first, ahead of the earlier listing. |
| Utils.TruncateText | src/lib/utils.ts:24-27 | Text no longer than `maxLength` is unchanged. Longer text becomes its first `maxLength` characters followed by "...", of length `maxLength + 3`. A negative `maxLength` keeps no character. |
| Utils.TruncateIdempotent | src/lib/utils.ts:24-27 | Truncating twice to the same length is truncating once. |
| Utils.GenerateConversationTitle | src/lib/utils.ts:29-32 | A non-empty message gives `truncateText(message, 30)`, 1 to 33 characters starting with the message's first characters. "Chat <date>" is produced only for the empty message. |
| Utils.IsValidUUID | src/lib/utils.ts:40-44 | `isValidUUID` accepts exactly the strings that fit the per-position layout: 36 characters, hyphens at 8, 13, 18 and 23, version 1–5 at 14, variant 8, 9, a or b at 19, hex digits elsewhere, in either case. |
| Utils.UuidPatternFitsLayout | src/lib/utils.ts:41-42 | The grouped pattern 8-4-4-4-12 accepts exactly the 36-character strings with hyphens at 8, 13, 18 and 23, a version digit 1–5 at 14, a variant digit 8, 9, a or b at 19, and hex digits elsewhere, in either case. |
| Utils.IsValidUUIDCaseInsensitive | src/lib/utils.ts:41-43 | Validation gives the same answer for a string and its lower-case form. |
| Utils.AgeOf | src/lib/utils.ts:6-21 | Buckets: under a minute, including negative differences → just now; minutes 1..59; hours 1..23; days 1..6; otherwise a date. Each count is the floor of the difference over its unit. |
| Utils.FormatTimestamp | src/lib/utils.ts:3-22 | "Just now"; the count's shortest decimal numeral (no leading zero) followed by "m ago", "h ago" or "d ago"; or the locale date, by bucket. |
| Utils.GetDeviceType | src/lib/utils.ts:91-96 | Mobile exactly for width ≤ 768, tablet for 768 < width ≤ 992, desktop above 992. |
| Utils.IsMobileDevice | src/lib/utils.ts:87-89 | True exactly when the device type is mobile. |
| Utils.DeviceTypeMonotone | src/lib/utils.ts:91-96 | A wider window never gets a smaller device class. |

## Left out

- Production paths of the handlers (the Supabase queries and inserts): they are calls into a hosted database.
- The Gemini client itself is replaced by the outcome oracle. Model selection and response parsing are not modelled.
- `uuidv4`, `Math.random`, `new Date()`, `toISOString` and `toLocaleDateString` are parameters. Parsing ISO timestamps, invalid dates and `NaN` are not modelled.
- `setTimeout` sleeps are recorded as waits, not performed. `console.log` and `console.error` are left out.
- Environment detection, client construction and the tRPC/zod/superjson wiring: configuration and library glue. Development mode is a parameter of `Replies.GenerateReply`.
- The React components, pages, theme constants and the Supabase client module: presentation and configuration.
- `scrollToBottom`, `copyToClipboard`, `downloadAsFile`, `debounce` and `generateId`: DOM, clipboard, timers and randomness.
- String lengths count characters. JavaScript's `length` and `substring` count UTF-16 code units, which differs for characters outside the Basic Multilingual Plane.
- Numbers are integers. Fractional `maxLength`, `maxRetries`, widths or timestamps are not modelled.
- Replies.GenerateReply: outside development mode its contract gives only the attempt count and the waits. `Replies.ProductionReply` states the reply itself.
- Replies.MockReply: the contract states only which replies quote the request. The fixed texts are the definition itself.
- ChatStore.DevStore.SendMessage: models the development-mode path only, where the model is not called. The production path is `Replies.ProductionReply` without the store.
- Referential integrity is not enforced by the source: `sendMessage` does not check that the conversation exists. `ChatStore.SendPreservesThreads` therefore assumes it.
- Concurrent requests interleaving on the shared arrays are not modelled. Each handler runs to completion.
