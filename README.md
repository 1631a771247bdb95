# nanofit virtual try-on — a Dafny model

nanofit lets a shopper upload (or photograph) a picture of themselves and a picture of a
garment. The backend sends both to an image model, which answers with a picture of the
person wearing the garment. The backend stores the result and returns it. The React
client resizes the pictures, keeps a local history of results, collects star-rated
feedback and shows a feedback dashboard. A service worker serves the app network-first.

This project models, one Dafny module per source file:

- `TryOnServer` (`backend/server.py`):
  - the try-on endpoint's decision procedure: the API key guard, the message sent to the
    model, the first-image rule, the stored record, and the two error shapes every
    failure is mapped to;
  - the lookup of a stored try-on;
  - the status-check endpoints.

  The model call, the store writes, the uuid and the clock are parameters. The
  `tryons` and `status_checks` collections are sequences in insertion order, so
  `find_one` returns the earliest match.
- `DemoImages` (`backend/generate_demo_images.py`):
  - the loop that scans the response parts for the first inline image;
  - the base64 re-encoding of raw bytes;
  - the decode-and-write step;
  - the script's control flow, which stops at the first missing picture.
- `Base64`: the base64 alphabet and padding of RFC 4648, section 4, a strict decoder of
  that canonical text, and the lenient decoder `b64decode` runs without `validate=True`
  (the loop of CPython's `binascii.a2b_base64`, which skips stray characters and stops at
  the padding that completes a group). The round trip `Decode(Encode(b)) == Some(b)` is
  proved here, and the lenient decoder is proved to agree with the strict one wherever
  the strict one accepts.
- `ImageProcessor` (`frontend/src/hooks/useImageProcessor.js`):
  - the rule that fits a picture into `maxWidth` x `maxHeight` by its longer side, with
    `Math.round(a*m/d)` computed exactly as `(2am + d) div 2d`;
  - the choice between the two browser decoders;
  - the `isProcessing`/`processError` state of the hook.
- `ServiceWorker` (`frontend/public/sw.js`): CacheStorage as a class with ordered cache
  names and a map of caches, and the install, fetch and activate handlers.
- `TryOnApp`, `FeedbackForm`, `FeedbackViewer` (the React components): each component's
  state is a class, and each handler is a method on it. The pure parts (data-URL
  splitting, error-text precedence, star and label predicates, the rating distribution,
  the daily-card slice) are functions with lemmas.
- `Wrappers`: `Option` and `Result`.

Errors are values. A Python exception or a rejected promise is a `Failure`, or the
error field the handler sets. Each handler's `ensures` states the new value of every
field in its `modifies` frame on every path, including the error paths.

## Model

| member | source | states |
|---|---|---|
| TryOnServer.Translate | backend/server.py:153-161 | An HTTPException is re-raised unchanged. Any other exception becomes status 500 with detail "Failed to process try-on request: " followed by exactly the exception text. |
| TryOnServer.FirstImageData | backend/server.py:120-129 | A missing or empty image list gives the 500 "No image was returned" HTTPException, and only then. Success happens exactly when images[0] has 'data', and the result is images[0]['data']. A first image without 'data' raises KeyError('data'). |
| TryOnServer.FindTryOn | backend/server.py:170 | `find_one` by id: None exactly when no stored record has the id. Otherwise the index of the earliest record with that id. |
| TryOnServer.ResponseOf | backend/server.py:174-179 | The TryOnResponse built from a stored record: its id, result_image, timestamp and status, and nothing else (the images sent are not returned). |
| TryOnServer.GetTryOn | backend/server.py:164-184 | 404 "Try-on not found" exactly when no record has the id. A store failure gives 500 with its text. Otherwise the lookup succeeds exactly when some record has the id, and the response is the id, result_image, timestamp and status of the earliest such record (`find_one` in insertion order). |
| TryOnServer.StoredTryOnIsFound | backend/server.py:134-179 | A try-on inserted under a new id is what a later lookup of that id returns. |
| TryOnServer.OtherLookupsUnchanged | backend/server.py:143-170 | Inserting a record changes no lookup of a different id, nor of an id already stored (the earliest record wins). |
| TryOnServer.GetStatusChecks | backend/server.py:63-66 | The stored checks in order: a prefix of the store, at most 1000 long, and the whole store when it holds at most 1000. |
| TryOnServer.Backend.CreateTryOn | backend/server.py:69-161 | Missing or empty key: 500 "Gemini API key not configured", with no model call and no write. Otherwise the model gets the instruction with [person, clothing] in that order. Success happens exactly when the model answered, the first image has data and the insert succeeded. Success appends the record (the tryon id, the request's images unchanged, images[0]['data'], the timestamp, "completed") and returns its id, result, timestamp and status. Every failure leaves the store unchanged and has one of the two error shapes. |
| TryOnServer.Backend.CreateStatusCheck | backend/server.py:56-61 | A successful write appends the check with the client name and returns it. A failed write gives 500 and changes nothing. |
| Base64.DigitValue | backend/generate_demo_images.py:48 | Decoding an alphabet character gives a 6-bit value that maps back to the same character. |
| Base64.DigitRoundTrip | backend/generate_demo_images.py:48-54 | Every 6-bit value survives encoding as a character and decoding back. |
| Base64.Encode | backend/generate_demo_images.py:48 | `b64encode`: the length is a multiple of four, and the text is empty exactly when the bytes are. |
| Base64.DecodeQuad | backend/generate_demo_images.py:54 | One group of four characters decodes to one to three bytes, and a group that is not the last always to exactly three: padding is accepted only in the last group. |
| Base64.Decode | backend/generate_demo_images.py:54 | The strict decoder: on success the text length is a multiple of four, at most 3 bytes come out per 4 characters, and a non-empty text gives non-empty bytes. Where it succeeds, `b64decode` gives the same bytes (LenientAgrees). |
| Base64.EncodeLength | backend/generate_demo_images.py:48 | The encoding has 4 characters per started group of 3 bytes, so it is empty exactly when the bytes are. |
| Base64.EncodeAlphabet | backend/generate_demo_images.py:48 | The encoding contains only alphabet characters and '=', and never a comma. |
| Base64.GroupRoundTrip | backend/generate_demo_images.py:48-54 | A full 3-byte group decodes back to its bytes. |
| Base64.OneByteRoundTrip | backend/generate_demo_images.py:48-54 | A 1-byte tail ("xx==") decodes back to its byte. |
| Base64.TwoBytesRoundTrip | backend/generate_demo_images.py:48-54 | A 2-byte tail ("xxx=") decodes back to its bytes. |
| Base64.DecodeUnfold | backend/generate_demo_images.py:54 | Decoding a text of four or more characters is decoding its first group followed by decoding the rest. |
| Base64.GroupStep | backend/generate_demo_images.py:48-54 | A full group of three bytes in front of bytes that round-trip still round-trips. |
| Base64.DecodeEncode | backend/generate_demo_images.py:48-54 | b64decode(b64encode(b)) == b for every byte string. |
| Base64.Scan | backend/generate_demo_images.py:54 | The loop of `a2b_base64` with strict mode off: characters outside the alphabet are skipped, a '=' that completes a group of four ends the input, other '=' are skipped, and input ending inside a group is an error. |
| Base64.LenientDecode | backend/generate_demo_images.py:54 | `b64decode(s)` for a str without `validate=True`: a non-ASCII text raises, so a decoded text is ASCII; otherwise the a2b_base64 loop decides. |
| Base64.ScanFullGroup | backend/generate_demo_images.py:54 | The loop reads four alphabet characters as the group's three bytes and goes on with the rest. |
| Base64.ScanTwoBytesTail | backend/generate_demo_images.py:54 | The loop reads "xxx=" as two bytes. |
| Base64.ScanOneByteTail | backend/generate_demo_images.py:54 | The loop reads "xx==" as one byte. |
| Base64.StrictScan | backend/generate_demo_images.py:54 | On every text the strict decoder accepts, the a2b_base64 loop reads the same bytes. |
| Base64.StrictIsAscii | backend/generate_demo_images.py:54 | Text the strict decoder accepts is ASCII, so `b64decode` does not refuse it as non-ASCII. |
| Base64.LenientAgrees | backend/generate_demo_images.py:54 | `b64decode` accepts every text the strict decoder accepts, with the same bytes. |
| Base64.LenientDecodeEncode | backend/generate_demo_images.py:48-54 | b64decode(b64encode(b)) == b for the decoder the script calls. |
| Base64.PadAfterGroupIsSkipped | backend/generate_demo_images.py:54 | "YWJj=" is refused by the strict decoder, and `b64decode` gives b"abc": a '=' after a complete group is skipped. |
| Base64.TextAfterPaddingIsIgnored | backend/generate_demo_images.py:54 | "YQ==YQ==" is refused by the strict decoder, and `b64decode` gives b"a": input after the padding that completes a group is ignored. |
| DemoImages.Normalize | backend/generate_demo_images.py:46-50 | A bytes payload becomes text whose decoding, strict or by `b64decode`, gives the same bytes. A text payload passes through unchanged. A missing payload leaves None. |
| DemoImages.FirstImage | backend/generate_demo_images.py:43-51 | The reference for the for/break loop: the normalized payload of the first part with inline data, or None when no part has any. |
| DemoImages.FirstImageAt | backend/generate_demo_images.py:44-51 | The first part with inline data decides the extracted value. |
| DemoImages.FirstImageNone | backend/generate_demo_images.py:43-51 | With no inline part, the extracted value stays None. |
| DemoImages.IgnoresLaterParts | backend/generate_demo_images.py:44-51 | Parts after the first inline one are never inspected: replacing them does not change the result. |
| DemoImages.ExtractImage | backend/generate_demo_images.py:43-51 | The for/break loop computes the first-inline-part value. |
| DemoImages.RawBytesAreWrittenBack | backend/generate_demo_images.py:47-56 | When the first inline part carries non-empty raw bytes, the bytes written to the file are exactly those bytes. |
| DemoImages.EmptyBytesAreNotProduced | backend/generate_demo_images.py:47-59 | An empty bytes payload encodes to "", which is falsy, so nothing is written. |
| DemoImages.TextOnlyIsNotProduced | backend/generate_demo_images.py:53-60 | A response without inline data produces no picture. |
| DemoImages.Outcome | backend/generate_demo_images.py:35-60 | The reference for one picture: the call raised or gave no parts (raised), the extracted text is falsy (not produced), `b64decode` raised (raised), or the decoded bytes are saved. |
| DemoImages.GenerateShot | backend/generate_demo_images.py:35-60 | One picture's outcome: extract, then decode and write when the value is truthy. |
| DemoImages.GenerateDemoImages | backend/generate_demo_images.py:13-99 | A missing or empty key returns at once, with no request and no write, and only then. The after picture is requested exactly when the before picture was saved. The result is Done exactly when both were saved, writing before.png then after.png with the decoded bytes. It is BeforeFailed exactly when the before reply produced no picture (nothing written), AfterFailed exactly when the before picture was saved and the after reply produced none (only before.png written), and ScriptRaised exactly when a model call or decoding raised, with before.png written only if it was saved before the exception. |
| ImageProcessor.RoundedScale | frontend/src/hooks/useImageProcessor.js:25-30 | The result is within one half of a*m/d, and halves round up as Math.round does. |
| ImageProcessor.RoundedScaleAtMost | frontend/src/hooks/useImageProcessor.js:25-30 | Scaling the shorter side by maxSide/longerSide never exceeds maxSide. |
| ImageProcessor.Fit | frontend/src/hooks/useImageProcessor.js:20-33 | A landscape picture wider than maxWidth becomes (maxWidth, round(h*maxWidth/w)). A portrait or square picture taller than maxHeight becomes (round(w*maxHeight/h), maxHeight). Dimensions within their bound are unchanged. Orientation is kept (landscape stays width >= height, portrait stays height >= width). With equal bounds (the default 1024 x 1024) both sides end within the bound. |
| ImageProcessor.FitDimensions | frontend/src/hooks/useImageProcessor.js:55-68 | The reassignments of the `width`/`height` locals compute Fit. |
| ImageProcessor.DecodedSize | frontend/src/hooks/useImageProcessor.js:12-87 | The bitmap's size when createImageBitmap succeeds. Otherwise the fallback image's size, the "Image format unsupported" error when the image fails to load, or an error without a message when the reader fails. |
| ImageProcessor.ResizeImage | frontend/src/hooks/useImageProcessor.js:8-93 | The bitmap path and the FileReader fallback give the same canvas size, Fit of the decoded size. Failures carry the decoder's error. |
| ImageProcessor.ErrorText | frontend/src/hooks/useImageProcessor.js:104 | `err.message` when it is a non-empty text, and exactly 'Failed to process image' when it is missing or empty. Never empty. |
| ImageProcessor.ImageProcessorHook.ProcessFile | frontend/src/hooks/useImageProcessor.js:95-107 | isProcessing always ends false. On success the canvas is Fit with the 1024 x 1024 defaults and processError stays null. On failure the same error is rethrown and processError is its message or the default. |
| ServiceWorker.Kept | frontend/public/sw.js:48-56 | The reference for the activation loop: the cache names in order, without every name other than CACHE_NAME. |
| ServiceWorker.KeptMembers | frontend/public/sw.js:48-56 | After activation exactly CACHE_NAME survives among the cache names, if it was there. |
| ServiceWorker.KeptExcludes | frontend/public/sw.js:53-54 | No name other than CACHE_NAME survives activation. |
| ServiceWorker.KeptIdempotent | frontend/public/sw.js:48-58 | Purging the name list twice is the same as purging it once. |
| ServiceWorker.Purged | frontend/public/sw.js:48-58 | After activation only CACHE_NAME can remain, with its contents untouched. |
| ServiceWorker.ActivateIdempotent | frontend/public/sw.js:48-58 | Activating twice leaves the same cache names and the same caches as activating once. |
| ServiceWorker.Without | frontend/public/sw.js:54 | The reference for `caches.delete(n)` on the name list: the names in order, without n. |
| ServiceWorker.WithoutMembers | frontend/public/sw.js:54 | After `caches.delete(n)` the names are the old ones minus n. |
| ServiceWorker.WithoutDistinct | frontend/public/sw.js:54 | Deleting a cache keeps cache names free of repetitions. |
| ServiceWorker.DeleteStep | frontend/public/sw.js:52-55 | Deleting the current name, which is not CACHE_NAME, advances the activation loop. |
| ServiceWorker.KeepStep | frontend/public/sw.js:52-53 | Passing over CACHE_NAME advances the activation loop. |
| ServiceWorker.Cacheable | frontend/public/sw.js:30 | The responses the fetch handler writes back: present, status exactly 200, type 'basic'; the negation of the early-return guard. |
| ServiceWorker.Ok | frontend/public/sw.js:17 | The responses `addAll` accepts: status 200 to 299 except 206 Partial Content, as the Cache API requires. |
| ServiceWorker.FirstHolder | frontend/public/sw.js:42 | Index k names the first cache, in creation order, that holds the URL. |
| ServiceWorker.MatchIn | frontend/public/sw.js:42 | `caches.match` finds nothing exactly when no cache holds the URL. Otherwise it gives the entry of the first cache, in creation order, that holds the URL. |
| ServiceWorker.CacheStorage.Open | frontend/public/sw.js:14-34 | `caches.open` creates an empty cache only when the name is new, and leaves everything else unchanged. |
| ServiceWorker.CacheStorage.Delete | frontend/public/sw.js:54 | `caches.delete` removes the name and its cache. |
| ServiceWorker.CacheStorage.Install | frontend/public/sw.js:1-18 | CACHE_NAME exists afterwards, appended to the names only when it was new, and other caches are unchanged. The install succeeds exactly when all five listed URLs fetch with an ok status (200-299, not 206). Then all five are stored in CACHE_NAME; otherwise none is (addAll is all-or-nothing) and the worker does not activate. |
| ServiceWorker.CacheStorage.Match | frontend/public/sw.js:40-43 | A cache lookup by request: nothing for a non-GET request, nothing exactly when no cache holds the URL, else the entry of the first cache in creation order that holds it. |
| ServiceWorker.CacheStorage.Fetch | frontend/public/sw.js:22-45 | Network first. A delivered response is returned as it came. Only a status-200 'basic' response is written into CACHE_NAME under its request; CACHE_NAME is appended to the names only when it was new, and other caches are untouched. A missing, non-200 or non-basic response leaves the caches unchanged. A network failure returns the cache match, which may be absent. |
| ServiceWorker.CacheStorage.PurgeAt | frontend/public/sw.js:52-55 | One step of the activation loop: deletes cacheNames[i] when it is not CACHE_NAME, else keeps it, and advances the loop's progress invariant by one name. |
| ServiceWorker.CacheStorage.Activate | frontend/public/sw.js:47-58 | The loop over the cache names deletes every cache but CACHE_NAME, keeps CACHE_NAME's contents, and leaves the names as Kept of the old names. |
| TryOnApp.UpToComma | frontend/src/components/TryOnApp.js:55 | The text before the first comma, which PayloadOf splits off: a comma-free prefix of the text, followed by a comma unless it is all of it. |
| TryOnApp.PayloadOf | frontend/src/components/TryOnApp.js:249-256 | `split(',')[1]`: undefined exactly when the text has no comma. Otherwise a comma-free text v such that s is a comma-free head, a comma, v, then nothing or text from the next comma on: the second comma-separated field. |
| TryOnApp.SecondFieldSplit | frontend/src/components/TryOnApp.js:249-256 | The head before the first comma, the field after it and the rest from the next comma on put the text back together. |
| TryOnApp.PayloadOfDataUrl | frontend/src/components/TryOnApp.js:55 | Splitting "header,payload" gives back the payload. |
| TryOnApp.DataUrlGivesBackEncoding | frontend/src/components/TryOnApp.js:249-256 | A history entry's data URL `header,base64` with a comma-free header gives back, after `split(',')[1]`, exactly the base64 text of the bytes, because the encoding never contains a comma. |
| TryOnApp.FailureText | frontend/src/components/TryOnApp.js:176-193 | The error text: the server's detail, else the error's message, else the default. A response without result_image gives 'No image returned from server'. Never empty. |
| TryOnApp.TryOnPage.constructor | frontend/src/components/TryOnApp.js:13-33 | The initial state, with history loaded from storage when an entry exists. |
| TryOnApp.TryOnPage.SaveToHistory | frontend/src/components/TryOnApp.js:36-46 | Given the history `seen` by the closure, the new item is at index 0 and the seen items follow in order, so the length is one more than seen. Storage holds the new history when `setItem` succeeds. When it throws (the storage quota), the new history is already set and storage keeps its old value. |
| TryOnApp.TryOnPage.OpenCamera | frontend/src/components/TryOnApp.js:63-66 | Records the camera target and shows the camera. |
| TryOnApp.TryOnPage.HandleCameraCapture | frontend/src/components/TryOnApp.js:68-75 | The capture becomes the person picture exactly when the target is 'person', and the clothing picture otherwise. The other picture is unchanged and the error is cleared. |
| TryOnApp.TryOnPage.BeginGenerate | frontend/src/components/TryOnApp.js:152-171 | With a picture missing: only the error 'Please upload both…' is set and nothing is posted. Otherwise both base64 texts are posted, the pictures and the history of this render are captured, loading is true, the error and result are cleared and the message is 'Creating your virtual try-on...'. |
| TryOnApp.TryOnPage.FinishGenerate | frontend/src/components/TryOnApp.js:173-197 | When the reply carries result_image: the result is 'data:image/png;base64,' + result_image and the history becomes the new item in front of the captured history. Storage then mirrors it and the error is untouched, or, when `setItem` throws, storage keeps its old value and the error is the exception's message (or the default). Any other reply sets the error by precedence and leaves the result, history and storage alone. Loading ends false with an empty message. |
| TryOnApp.TryOnPage.HandleGenerate | frontend/src/components/TryOnApp.js:152-198 | BeginGenerate then, when something was posted, FinishGenerate. With a picture missing only the error changes. A result becomes 'data:image/png;base64,' + result_image and adds exactly one history item in front; the error stays null and storage mirrors the history, unless `setItem` throws, when storage keeps its old value and the error is the exception's message. Any other reply sets the error by precedence and adds none. Loading ends false with an empty message. |
| TryOnApp.TryOnPage.ClearDuringGenerate | frontend/src/components/TryOnApp.js:36-46 | Clearing the history while a request is in flight does not stick: the save spreads the history captured at render time, so afterwards the history is the new item followed by the old history. Storage holds it again, or stays cleared when `setItem` throws. |
| TryOnApp.TryOnPage.HandleStartOver | frontend/src/components/TryOnApp.js:201-207 | Clears both pictures, the result, the error and the loading text. History is not in its frame, so it is unchanged. |
| TryOnApp.TryOnPage.HandleClearHistory | frontend/src/components/TryOnApp.js:210-215 | Empties history and storage only when confirmed; otherwise nothing changes. |
| TryOnApp.TryOnPage.HandleHistorySelect | frontend/src/components/TryOnApp.js:247-258 | Both pictures come back with their base64 taken after the first comma, and the stored result is shown. An uploaded picture's `blob:` preview has no comma, so its base64 comes back absent and a later POST omits it. |
| FeedbackForm.NullIfEmpty | frontend/src/components/FeedbackForm.js:32-33 | `value \|\| null`: null exactly for the empty text, else the text unchanged. |
| FeedbackForm.ShownRating | frontend/src/components/FeedbackForm.js:79 | `hoveredRating \|\| rating`: the hover preview when there is one, else the chosen rating. |
| FeedbackForm.StarActive | frontend/src/components/FeedbackForm.js:79 | Star k is lit when k <= (hoveredRating || rating): the hover preview wins over the chosen rating. |
| FeedbackForm.ActiveStarsArePrefix | frontend/src/components/FeedbackForm.js:74-80 | An active star has only active stars before it. |
| FeedbackForm.ActiveCountIsShown | frontend/src/components/FeedbackForm.js:74-80 | Exactly min(hoveredRating \|\| rating, 5) stars are active. |
| FeedbackForm.RatingLabel | frontend/src/components/FeedbackForm.js:89-96 | 1 Poor, 2 Fair, 3 Good, 4 Very Good, 5 Excellent. There is a label exactly for 1..5, so none for 0. |
| FeedbackForm.LabelsAreDistinct | frontend/src/components/FeedbackForm.js:89-96 | Different ratings never share a label. |
| FeedbackForm.SubmitDisabled | frontend/src/components/FeedbackForm.js:132 | The submit button is disabled while submitting or while the rating is 0. |
| FeedbackForm.FeedbackFormState.ClickStar | frontend/src/components/FeedbackForm.js:81 | Clicking star k sets the rating to k. |
| FeedbackForm.FeedbackFormState.HoverStar | frontend/src/components/FeedbackForm.js:82 | Hovering star k previews k. |
| FeedbackForm.FeedbackFormState.LeaveStar | frontend/src/components/FeedbackForm.js:83 | Leaving a star clears the preview. |
| FeedbackForm.FeedbackFormState.HandleSubmit | frontend/src/components/FeedbackForm.js:17-48 | Rating 0: the error 'Please select a rating', nothing posted, no close timer, submitting unchanged. An enabled button always posts. Otherwise it posts tryon_id and rating unchanged, with an empty comment or name as null. Success marks the form submitted and schedules the close after two seconds; failure sets 'Failed to submit feedback. Please try again.' and schedules nothing. submitting ends false. |
| FeedbackViewer.Ratings | frontend/src/components/FeedbackViewer.js:28 | `feedback.map(f => f.rating)`: one rating per entry, in order. |
| FeedbackViewer.Count | frontend/src/components/FeedbackViewer.js:32 | `filter(r => r === star).length`: exactly the number of occurrences of the star in the ratings (their multiset count), at most the number of ratings. |
| FeedbackViewer.Distribution | frontend/src/components/FeedbackViewer.js:31-33 | Five entries; entry i counts the ratings equal to i+1. |
| FeedbackViewer.CountsAddUp | frontend/src/components/FeedbackViewer.js:29-33 | The five star counts add up to the number of ratings in 1..5. |
| FeedbackViewer.DistributionSum | frontend/src/components/FeedbackViewer.js:29-33 | The distribution's sum equals the number of ratings in 1..5, which is at most the number of feedback entries. |
| FeedbackViewer.AllInRange | frontend/src/components/FeedbackViewer.js:29-33 | When every rating lies in 1..5, the distribution accounts for all of them. |
| FeedbackViewer.RenderStars | frontend/src/components/FeedbackViewer.js:51-61 | Five stars; star k is filled exactly when k <= rating. |
| FeedbackViewer.SameStarRule | frontend/src/components/FeedbackViewer.js:54-55 | The dashboard fills star k exactly when the form, with no hover, would light it: both components share the same five-star rule. |
| FeedbackViewer.DailyCards | frontend/src/components/FeedbackViewer.js:147 | `slice(0, 7)`: the first min(7, n) daily figures, in order. |
| FeedbackViewer.FormatDate | frontend/src/components/FeedbackViewer.js:63-73 | 'N/A' for a missing or empty date, else the localized rendering. |
| FeedbackViewer.DateOf | frontend/src/components/FeedbackViewer.js:166 | `item.feedback_timestamp || item.timestamp`: the feedback timestamp when it is a non-empty text, else the record's timestamp; the result is truthy exactly when one of the two is. |
| FeedbackViewer.EntryDate | frontend/src/components/FeedbackViewer.js:166 | The date shown on an entry: 'N/A' exactly when neither timestamp is a non-empty text, else the localized feedback timestamp, falling back to the record's timestamp. |
| FeedbackViewer.FeedbackViewerState.constructor | frontend/src/components/FeedbackViewer.js:9-14 | The initial state: empty list, loading, no error, no stats. |
| FeedbackViewer.FeedbackViewerState.LoadFeedback | frontend/src/components/FeedbackViewer.js:20-49 | Loading always ends false. A failed request sets 'Failed to load feedback' and changes nothing else. A response sets the list and `daily_stats \|\| []`. With no feedback list, reading its length throws and sets the same error. Otherwise the stats are set only for a non-empty list, with the distribution of its ratings and the total copied from the response, and the error is cleared. |

## Left out

- The image model (LlmChat, the genai client) and MongoDB are not modelled as code. A model reply or exception, and the outcome of each insert, are inputs; uuid4 and utcnow are inputs too.
- Base64.LenientDecode: follows the loop of CPython's `binascii.a2b_base64` with strict mode off (stray characters skipped, a '=' that completes a group ends the input, other '=' skipped). Other Python implementations, and a `bytes` argument to `b64decode`, are not modelled.
- The timestamp is an integer. BSON's millisecond truncation of `datetime.utcnow()` is not modelled.
- The root endpoint (`GET /api/`), the CORS and logging setup and the shutdown hook are left out, because they hold no logic.
- The status-check validation by pydantic is left out: the client name is taken as given.
- DemoImages.GenerateDemoImages: the prompts, the file system and the console messages are not modelled. Writing is a list of (path, bytes) pairs, and an exception that ends the script is one result value.
- ImageProcessor.ResizeImage: the canvas drawing, the JPEG encoding at quality 0.9 and the data URL are floating-point or browser work, so only the canvas size is modelled.
- ServiceWorker.CacheStorage.Fetch: the `cache.put` the handler does not await is modelled as done before the response is returned. `skipWaiting` and `clients.claim` only affect which worker is in control, so they are left out. The Cache API's refusal of `put` for a non-GET request is modelled, and the refused write leaves CACHE_NAME as `caches.open` made it.
- ServiceWorker.CacheStorage.Install: `addAll` fetches the URLs; the network is a map from URL to response, and a URL missing from it is a failed fetch.
- TryOnApp: `handleImageUpload`, `handlePaste`, `handleDrop` and `fileToBase64` read files through FileReader and object URLs, which are browser I/O. The data-URL split they share is modelled as `PayloadOf`.
- TryOnApp: `handleDownload`, `handleEmailShare` and `handleQRShare` only build links or alerts. `window.confirm` is the `confirmed` parameter. `localStorage` is the `storedHistory` field, and a saved history is taken to parse.
- TryOnApp.TryOnPage.HandleGenerate: the messages 'Preparing images...', 'Finalizing your new look...' and 'Complete!' are overwritten before the page renders again, so only 'Creating your virtual try-on...' (shown while the request is in flight) and the final state are stated.
- TryOnApp.FailureText: FastAPI's 422 validation reply carries `detail` as a list of objects, not a text; the model takes `detail` as text, so what React would render for that list is not modelled.
- FeedbackViewer.FeedbackViewerState.LoadFeedback: the average rating (`toFixed(1)`) and the bar widths are floating point and are not modelled. The date filter `selectedDate` changes no modelled value.
- FeedbackViewer.FormatDate: `toLocaleString` is a parameter, because locale formatting is browser behaviour.
- The presentational components (LandingPage, HistoryPanel, UploadCard, LoadingOverlay, BeforeAfterSlider, CameraCapture, App), the Tailwind configuration and `backend/generate_logo.py` are not part of this model. They hold no logic beyond browser, camera and external-service calls, or slider arithmetic in floating point.
- The tests import `send_to_n8n_webhook` (backend_test.py:180, webhook_payload_test.py:17), which `backend/server.py` does not define; it is not modelled.
