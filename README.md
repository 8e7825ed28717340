# Lilabot webhook core, in Dafny

Lilabot is a WhatsApp bot. When someone sends it a picture, it turns the picture into a sticker and sends it back. When someone thanks it ("obrigada" or "obrigado"), it answers with a sticker. To any other message it answers with a greeting. This project models the three parts of `index.js` whose behaviour can be stated exactly:

- **The subscription handshake** (`GET /webhook`) is modelled by `Webhook.VerifySubscription`. It is a pure decision over `hub.mode`, `hub.verify_token` and `hub.challenge`, given the configured token. A query value is absent, a string, or an array or object built by the query parser. An unset `VERIFY_TOKEN` is `None`, and JavaScript's `===` is modelled as written, including `undefined === undefined`.
- **The adaptive WEBP quality search** is modelled in `StickerEncoding`. The image library's resize-and-encode step is a parameter, `encode(image, quality)`. It returns the encoded buffer, or `None` when the library throws. `MakeWebp` is the imperative loop of the source. It is proved equal to the function `QualitySearch`, and the lemmas about `QualitySearch` state the search's bounds and its choice.
- **The message handler** (`POST /webhook`) is modelled in `Dispatcher`. `HandlePost` follows the source's control flow. It has early returns, a labelled block that plays the role of the outer `try`/`catch`, and a separate method, `TryImagePipeline`, for the inner `try` of the image branch. It appends every request it issues to a trace:
  - the message sends (stickers and texts);
  - the media metadata lookup;
  - the image download;
  - the sticker upload.

  The network is a parameter: `net.succeeds(n)` says whether the n-th request of the delivery succeeds. The URL, bytes and sticker id that successful requests return are parameters too, and so is the value of `Math.random()`. `HandlePost` always answers 200, and its trace equals the function `Dispatcher.Respond`. `DispatcherProperties` proves what the handler promises about `Respond`, branch by branch.

`JsText` models the JavaScript built-ins the handler depends on:
- `trim`, with the full ECMAScript whitespace set;
- `toLowerCase`, for ASCII and Latin-1 letters;
- `includes`;
- the `filter(Boolean)` idiom.

Three behaviours of the code are easy to misread:
- **Quality floor.** The floor of the quality search is 35, not 40. The loop tests `q >= 40` before `q -= 5`, so the last quality encoded is 35 and there can be 10 encodes (80, 75, …, 35). `StickerEncoding.LowestQuality` is 35, `MaxEncodes` is 10, and `FloorReached` proves both values.
- **Failed thank-you sticker.** When the thank-you sticker send fails, exactly one fixed fallback text follows (`Dispatcher.ThanksFallback`).
- **Configuration hint.** The hint text sent when no sticker is configured names `THANKS_STICKER_ID1/2`, but the code reads `LILA_ID_1` and `DORY_ID_1` (`index.js:42-43`). The model keeps the text exactly as written.

## Model

| member | source | states |
|---|---|---|
| `JsText.TrimStart` | index.js:38 | the result is a suffix of the input; every character removed is ECMAScript whitespace; the result does not start with whitespace |
| `JsText.TrimEnd` | index.js:38 | the result is a prefix of the input; every character removed is whitespace; the result does not end with whitespace |
| `JsText.Trim` | index.js:38 | `trim` never lengthens the text, and its result neither starts nor ends with whitespace |
| `JsText.TrimIsSlice` | index.js:38 | `trim` returns a contiguous slice of the input, and every character outside the slice is whitespace |
| `JsText.TrimIdempotent` | index.js:38 | trimming a trimmed text changes nothing |
| `JsText.ToLower` | index.js:38 | lower-casing keeps the length, maps every character through the letter mapping, and leaves no upper-case letter |
| `JsText.ToLowerIdempotent` | index.js:38 | lower-casing a lower-cased text changes nothing |
| `JsText.IncludesIffOccurs` | index.js:40 | `includes(pat)` holds exactly when some index of the text starts an occurrence of `pat` (both directions) |
| `JsText.Includes` | index.js:40 | `includes(pat)` can hold only when the pattern is no longer than the text, and always holds for the empty pattern; `IncludesIffOccurs` characterises it fully |
| `JsText.NonEmptyIds` | index.js:44 | `filter(Boolean)` keeps at most as many ids as it is given, and each one kept is a configured, non-empty string |
| `JsText.NonEmptyIdsMembers` | index.js:44 | a string survives the filter exactly when it is non-empty and configured (both directions) |
| `Webhook.VerifySubscription` | index.js:18-24 | the answer is 200 exactly when the mode is `subscribe` and the token strictly equals the configured one; a 200 echoes the challenge, and otherwise the answer is 403 with body `Forbidden` |
| `Webhook.AcceptedOnlyWithConfiguredToken` | index.js:22 | with a token configured, only a request that carries exactly that token is accepted |
| `Webhook.UnconfiguredTokenAcceptsMissingParameter` | index.js:12-22 | with `VERIFY_TOKEN` unset, a subscribe request without `hub.verify_token` is accepted, because `undefined === undefined` |
| `Webhook.StructuredTokenRejected` | index.js:19-23 | a token given as an array or object is never accepted |
| `StickerEncoding.SearchFrom` | index.js:109-113 | a search step keeps the qualities already tried as a prefix and always adds the quality it encodes |
| `StickerEncoding.SearchFromShape` | index.js:109-113 | a search resumed at the k-th quality of the scan, after k oversized encodes, ends in the shape `SearchShape` states |
| `StickerEncoding.SearchShape` | index.js:102-113 | the search tries 80, 75, … in order, between 1 and 10 times; every quality but the last gave an oversized buffer; the result is the encoding at the last quality, and when it exists it is at most 102400 bytes or the quality is 35 |
| `StickerEncoding.QualitiesInRange` | index.js:102-112 | every quality tried is a multiple of 5 between 35 and 80 |
| `StickerEncoding.HighestFittingQuality` | index.js:109-113 | when the chosen buffer fits, every higher quality on the scan gave an oversized buffer, so the chosen quality is the highest that fits |
| `StickerEncoding.FloorReached` | index.js:110-113 | when nothing on the scan fits, the search makes exactly 10 encodes and returns the encoding at quality 35 |
| `StickerEncoding.OneEncodeWhenStartFits` | index.js:109-110 | when the buffer at quality 80 fits, exactly one encode happens and that buffer is returned |
| `StickerEncoding.MakeWebp` | index.js:102-113 | the loop's qualities and final buffer (or the library's failure) are exactly those of `QualitySearch`, so all of `SearchShape` holds for it; `q` strictly decreases, so it terminates |
| `Dispatcher.ExtractMessage` | index.js:29-30 | a message is found exactly when the first entry, its first change, that change's value and its first message all exist, and the message found is that first message |
| `Dispatcher.NormalizedText` | index.js:38 | the normalisation fails (as `trim` on a truthy non-string throws) exactly for a truthy non-string body; a string body is trimmed and lower-cased; an absent or falsy body becomes `''`; the result never holds an upper-case letter |
| `Dispatcher.PickIndex` | index.js:48 | `Math.floor(Math.random() * n)` is a valid index, below `n`, for every draw in `[0, 1)` |
| `Dispatcher.TryImagePipeline` | index.js:87-150 | the requests of the image `try` block, and whether it ran to its end, are exactly those of `ImageAttempt`; the chosen buffer comes from `MakeWebp` |
| `Dispatcher.EncodeSticker` | index.js:102-113 | the buffer handed to the upload is the result of the quality search, or the library's failure |
| `Dispatcher.HandleText` | index.js:37-82 | the text branch issues exactly the requests of `TextReply`: nothing when `trim` throws, the thank-you reply for a text containing "obrigada" or "obrigado", the greeting otherwise; it reports a throw to the outer `catch` exactly when `trim` threw or its last send failed |
| `Dispatcher.HandleThanks` | index.js:44-71 | the thank-you branch issues exactly the requests of `ThanksReply`: the drawn sticker, then the fallback text only if the sticker send failed; the hint when no id is configured; it reports a throw exactly when its last send failed |
| `Dispatcher.HandlePost` | index.js:27-174 | the handler answers 200 on every path (no message, each branch, each caught failure), and the requests it issues are exactly `Respond`'s |
| `DispatcherProperties.NoMessageNoRequests` | index.js:29-31 | a delivery without a message causes no request |
| `DispatcherProperties.OnlyFirstMessageHandled` | index.js:29-30 | the first message of the first change of the first entry is the one handled, whatever follows it |
| `DispatcherProperties.ThanksRepliesToSender` | index.js:46-71 | every message sent in the thank-you branch is addressed to the sender |
| `DispatcherProperties.TextRepliesToSender` | index.js:37-81 | every message sent in the text branch is addressed to the sender |
| `DispatcherProperties.ImageRepliesToSender` | index.js:85-160 | every message sent in the image branch is addressed to the sender |
| `DispatcherProperties.RepliesGoToSender` | index.js:33-168 | every message the handler sends goes to the sender of the handled message |
| `DispatcherProperties.OtherTypeGreets` | index.js:163-168 | a message that is neither text nor image gets exactly one greeting text |
| `DispatcherProperties.NonStringBodyNoRequests` | index.js:38 | a text body that is a truthy non-string makes `trim` throw; the outer catch absorbs it and nothing is sent |
| `DispatcherProperties.ThanksIffSubstring` | index.js:40 | the thanks test holds exactly when "obrigada" or "obrigado" occurs somewhere in the normalised text (both directions) |
| `DispatcherProperties.NormalizeIdempotent` | index.js:38 | normalising (trim, then lower-case) a normalised text changes nothing |
| `DispatcherProperties.PlainTextGreets` | index.js:75-81 | a text that is not a thank-you gets exactly one greeting text |
| `DispatcherProperties.ThanksWithoutIds` | index.js:64-71 | a thank-you with neither id configured (unset or empty) gets exactly one configuration-hint text and no sticker |
| `DispatcherProperties.ThanksSticker` | index.js:42-63 | a thank-you with an id configured gets a sticker to the sender whose id is a configured, non-empty id; when that send fails, exactly one fallback text follows, and otherwise nothing else is sent |
| `DispatcherProperties.BothIdsSplitTheDraw` | index.js:42-48 | with both ids configured the choices are `[LILA_ID_1, DORY_ID_1]`; a draw below 0.5 picks the first, and any other draw picks the second |
| `DispatcherProperties.PickReachesEvery` | index.js:48 | every index below `n` is drawn by some value in `[0, 1)` |
| `DispatcherProperties.AttemptFollowsSuccessPath` | index.js:88-150 | the image `try` block issues a prefix of the success path, at most five requests; every request but the last succeeded, and when the block did not complete, its last request failed or the encode failed right after the download; it completes exactly when every step succeeds, and then it has issued all five |
| `DispatcherProperties.ImageSuccess` | index.js:88-150 | on success the image branch issues, in order: the metadata lookup, the download, the upload of the buffer the quality search chose, the sticker that references the uploaded id, and the confirmation text, and nothing else |
| `DispatcherProperties.ImageFailure` | index.js:151-158 | a failure at any step (missing image, metadata, download, encode, upload, sticker send, confirmation send) ends the branch with exactly one apology text, after the success path's steps up to the failing one: all but the last of those succeeded, and the last failed unless the encode failed after the download (that case is pinned exactly by `ImageEncodeFailure`); with no image, the apology is the only request |
| `DispatcherProperties.EncodeFailureStopsAttempt` | index.js:109-151 | when the image library throws, the `try` block has issued at most the lookup and the download, and it does not complete |
| `DispatcherProperties.ImageEncodeFailure` | index.js:88-158 | when the lookup and the download succeed but the image library throws, the branch issues exactly the lookup, the download and the apology: no upload and no sticker |
| `DispatcherProperties.ImageReplyDistinct` | index.js:88-158 | the requests of the image branch, apology included, are pairwise distinct |
| `DispatcherProperties.ImageNoRetry` | index.js:88-158 | the image branch never issues the same request twice |

## Left out

- Express setup, route registration, the 10 MB body limit, `app.listen` and the `/` liveness route are framework I/O. They are not modelled.
- The contents of the HTTP requests are not modelled: the Graph API URLs, `PHONE_NUMBER_ID`, the bearer header, the FormData multipart body and `messaging_product`. A request is identified by its kind and by the values the handler chooses: recipient, sticker id, text, media id, URL and buffer. The response data of the API is not modelled. The URL, bytes and sticker id it returns on success are parameters. A success is a boolean per request.
- The image library's resize to 512×512 with a transparent `contain` fit, and its WEBP encoding, are a foreign library. Only its output, or its failure, at each quality enters the model, so the output's dimensions are not verified.
- `Math.random` is a parameter `roll` in `[0, 1)`. The model multiplies in real arithmetic. This equals the double-precision product, because the product is `roll` times 1 or 2, which is exact.
- The 600 ms propagation delay, the `console` logging and timers, and `dotenv` loading are timing, logging and configuration. They are not modelled.
- `JsText.ToLower`: maps only the ASCII and Latin-1 upper-case letters. `toLowerCase` maps all of Unicode, and a few characters become two (U+0130). No character outside the modelled range lower-cases to a lone letter that would complete "obrigada" or "obrigado", but the normalised text itself can differ from JavaScript's for such input.
- Malformed deliveries are not modelled: a JSON value of the wrong type where `entry`, `changes` or `messages` should be an array, a falsy non-object message, and a sender `from` that is not a string. Absent arrays and an empty body are modelled as empty arrays.
- A `msg.text.body` that is not a string is modelled only by its truthiness. A truthy value makes `trim` throw, and a falsy one becomes `''`. The kind of the value (number, object, boolean) is not modelled.
- Concurrency between deliveries is not modelled: the handler holds no shared state that concurrent calls could race on. Errors thrown by `res.sendStatus`/`res.send` themselves are not modelled either.
- Strings are sequences of Unicode scalar values, while JavaScript strings are sequences of UTF-16 code units. A lone surrogate, which `JSON.parse` accepts, cannot be expressed in the model. On every text the model can express, `trim` and `includes` of an ASCII pattern behave as in JavaScript.
