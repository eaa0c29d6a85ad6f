# HandSpeak-AI: a Dafny model of the sign-prediction path and the account pages

HandSpeak-AI recognises American Sign Language letters from a picture of a hand. The
browser captures a camera frame or takes an uploaded image and posts it as a JPEG to the
backend's `/predict` endpoint. The backend crops around the hand, draws its 21-landmark
skeleton on a white 400x400 canvas and classifies that drawing. The reply becomes a word
and a confidence on the page, and a signed-in user's detection is saved to their history.
Around that path, the user can send feedback, browse and delete past predictions and edit
a profile with an avatar.

This project models that core in Dafny. Each source file becomes a module:

| module | source | form |
|---|---|---|
| `Wire` | the JSON reply and the rows all parts share | datatypes |
| `Strings` | decimal rendering and parsing; JavaScript `trim` and Python `strip` | functions, lemmas |
| `PredictApi` | `frontend/src/api/predict.ts` | functions, lemmas |
| `RealtimeDetection` | `frontend/src/pages/RealtimeDetection.tsx` | functions; class `RealtimePage` |
| `StaticImage` | `frontend/src/pages/StaticImage.tsx` | functions; class `StaticPage` |
| `PredictionDisplay` | `frontend/src/components/PredictionDisplay.tsx` | functions |
| `Raster` | the 400x400x3 image both backends draw on | class `Canvas` over an `array<int>` |
| `Skeleton` | the drawing loops shared by `backend/app.py` and `backend/server.py` | functions; methods with loops |
| `Vision` | the frame, box and hand shapes; numpy slicing | datatypes, functions |
| `AppBackend` | `backend/app.py` | functions; methods |
| `ServerBackend` | `backend/server.py` | functions; methods |
| `Pipeline` | what each front-end reader makes of each backend's replies | lemmas |
| `Feedback` | `frontend/src/pages/Feedback.tsx` | functions, lemmas; class `FeedbackPage` |
| `History` | `frontend/src/pages/History.tsx` | functions, lemmas; class `HistoryPage` |
| `Profile` | `frontend/src/pages/Profile.tsx` | functions, lemmas; class `ProfilePage` |

The pages' React state becomes class fields that their handlers' methods update. Rows the
pages write to the hosted database become a `seq` field that the handler appends to. Each
asynchronous handler is one method. Its parameters stand for what the browser, `fetch` or
the database would have returned: the session's user id, whether an insert failed, the HTTP
response.

On the backends, the hand detector, the CNN and the rule engine are foreign. Their results
become parameters: the frame's shape, the detected hands, the class probabilities and the
rule engine's character. The skeleton drawing is modelled as the sequence of `cv2.line` and
`cv2.circle` calls, kept beside the pixel buffer. `server.py`'s `white[:] = 255` is
modelled as an in-place loop over that buffer.

Some behaviours of the code that the model states as they are:

- **No clamping.** No reader clamps the confidence: the reply's number is passed through
  unchanged (`PredictApi.Normalise`, `RealtimeDetection.Normalise`).
- **Empty words.** The pages take `char ?? ...`, so a present but empty `char` gives the
  empty word (`RealtimeDetection.WordOf`). Only `predictSign` guarantees a non-empty word
  (`PredictApi.Normalise`).
- **Three readers.** Each page has its own copy of the reply reader, and `predictSign` has a
  third. The page copies never fail on a malformed reply; they fall back to "Class N" or
  "Unknown". `predictSign` fails with "Invalid response from backend".
- **Disabled buttons only.** Nothing stops a second prediction starting except buttons
  disabled while a flag is set. The model states those enabling conditions, and that each
  handler re-enables its control on every exit.

## Model

| member | source | states |
|---|---|---|
| `Wire.OrElse` | frontend/src/api/predict.ts:35 | `s \|\| fallback` is the string when it is present and non-empty, otherwise the fallback |
| `Strings.IntToStringRoundTrip` | frontend/src/api/predict.ts:29 | the decimal text of a status code (or rating, or class index) parses back to that integer |
| `Strings.IntToStringInjective` | frontend/src/pages/RealtimeDetection.tsx:74 | distinct integers render as distinct texts, so "Class N" names one class |
| `Strings.NatToStringValue` | frontend/src/pages/Feedback.tsx:54 | the rendered digits of a natural number denote that number |
| `Strings.LeadingTokenOfConcat` | frontend/src/pages/RealtimeDetection.tsx:49 | the first space-free token of `t + " " + rest` is `t` when `t` has no space |
| `Strings.Strip` | frontend/src/pages/Feedback.tsx:14-16 | the result is a middle slice of the input between two runs of white space, and neither starts nor ends with white space |
| `Strings.StripEmptyIff` | backend/app.py:124 | stripping gives "" exactly when every character is white space |
| `Strings.StripIdempotent` | frontend/src/pages/Feedback.tsx:52-54 | stripping twice gives the same text as stripping once |
| `Strings.Trim` | frontend/src/pages/Feedback.tsx:14-16 | JavaScript `trim`: no longer than the input and no JavaScript white space at either end |
| `Strings.PyStrip` | backend/app.py:124 | Python `strip`: no longer than the input and no `isspace` character at either end |
| `Strings.ToUpperAscii` | frontend/src/pages/Profile.tsx:140 | lower-case ASCII letters map to the matching capital; every other character is unchanged |
| `PredictApi.IndexToLabel` | frontend/src/api/predict.ts:12-17 | indices 0..25 give the one letter with code 65 + idx; every other index gives "Unknown" |
| `PredictApi.LabelRoundTrip` | frontend/src/api/predict.ts:12-17 | the 26 indices and the 26 capital letters correspond one to one, both ways |
| `PredictApi.PredictRequest` | frontend/src/api/predict.ts:19-26 | a POST to `BASE_URL + "/predict"` carrying the image under the form field "file" |
| `PredictApi.Normalise` | frontend/src/api/predict.ts:32-48 | `ok` not true fails with the message or "Prediction failed"; a truthy word with a confidence wins; otherwise a class index maps through IndexToLabel; success exactly when one of those applies, and any other `ok` reply fails with "Invalid response from backend"; the confidence is the reply's and the word is never empty |
| `PredictApi.PredictSign` | frontend/src/api/predict.ts:28-30 | a non-2xx status fails with "Backend error: " before the body is read; a 2xx status is the body's normalisation |
| `PredictApi.StatusInError` | frontend/src/api/predict.ts:29 | the text after the prefix of the status error parses back to the status |
| `RealtimeDetection.WordOf` | frontend/src/pages/RealtimeDetection.tsx:66-74 | the `char` when present (even if empty), else "Class " and the class index, else "Unknown" |
| `RealtimeDetection.ClassWordNamesIndex` | frontend/src/pages/RealtimeDetection.tsx:74 | "Class N" gives the class index N back |
| `RealtimeDetection.Normalise` | frontend/src/pages/RealtimeDetection.tsx:52-76 | raises exactly on `ok === false` (the message or the default); "no hand" exactly on `detected === false` otherwise; a detection carries WordOf and the reply's confidence or 0, unclamped |
| `RealtimeDetection.PredictFromBackend` | frontend/src/pages/RealtimeDetection.tsx:24-50 | an encoding failure raises its message; a non-2xx status raises "Backend error: " with the status as first token; otherwise the body's outcome |
| `RealtimeDetection.StatusInError` | frontend/src/pages/RealtimeDetection.tsx:49 | the first token after the prefix parses back to the status |
| `RealtimeDetection.CanvasSize` | frontend/src/pages/RealtimeDetection.tsx:127-128 | the video's size, 640 by 480 for a missing dimension; never zero |
| `RealtimeDetection.ShownAfter` | frontend/src/pages/RealtimeDetection.tsx:142-155 | a detection replaces the shown prediction, "no hand" clears it, an error keeps it |
| `RealtimeDetection.RowsAfter` | frontend/src/pages/RealtimeDetection.tsx:157-169 | exactly one "realtime" history row, for a detection with a session, else none |
| `RealtimeDetection.RealtimePage.constructor` | frontend/src/pages/RealtimeDetection.tsx:84-87 | no stream, no prediction, not capturing, nothing saved |
| `RealtimeDetection.RealtimePage.StartCamera` | frontend/src/pages/RealtimeDetection.tsx:98-118 | a granted camera sets the stream; a refusal changes nothing |
| `RealtimeDetection.RealtimePage.CaptureEnabled` | frontend/src/pages/RealtimeDetection.tsx:232 | the button is enabled exactly when not capturing and a stream exists |
| `RealtimeDetection.RealtimePage.CaptureAndPredict` | frontend/src/pages/RealtimeDetection.tsx:120-187 | no video: nothing changes; otherwise the canvas has CanvasSize, the flag ends false and the button is enabled again while the stream lasts, and with a context the prediction and saved rows follow ShownAfter and RowsAfter of the backend outcome |
| `RealtimeDetection.RealtimePage.ResetPrediction` | frontend/src/pages/RealtimeDetection.tsx:189 | clears the prediction and nothing else |
| `RealtimeDetection.RealtimePage.SpeakWord` | frontend/src/pages/RealtimeDetection.tsx:191-196 | speaks the shown word exactly when there is one and speech is supported |
| `StaticImage.Normalise` | frontend/src/pages/StaticImage.tsx:52-71 | the same raise / no-hand / detection rules as the camera page |
| `StaticImage.SameAsRealtime` | frontend/src/pages/StaticImage.tsx:52-71 | the upload page's normaliser agrees with the camera page's on every reply |
| `StaticImage.PredictFromBackend` | frontend/src/pages/StaticImage.tsx:24-50 | an encoding failure raises its message; a non-2xx status raises "Backend error: "; otherwise the body's outcome |
| `StaticImage.DiffersFromRealtimeOnlyInEncoding` | frontend/src/pages/StaticImage.tsx:28 | the two pages' readers give the same outcome except for the encoding-failure message (the upload's file name, "frame.jpg" or "image.jpg", is read by neither backend) |
| `StaticImage.StaticPage.constructor` | frontend/src/pages/StaticImage.tsx:79-81 | no image, no prediction, not processing, nothing saved |
| `StaticImage.StaticPage.HasImage` | frontend/src/pages/StaticImage.tsx:105 | an image is held exactly when the data URL is present and non-empty |
| `StaticImage.StaticPage.HandleFileSelect` | frontend/src/pages/StaticImage.tsx:83-102 | a file over 5 MB is refused; an accepted, read file replaces the image and clears the prediction; otherwise nothing changes |
| `StaticImage.StaticPage.PredictFromImage` | frontend/src/pages/StaticImage.tsx:104-189 | no image: a no-op; otherwise the flag ends false and Predict is enabled again, and a loaded image with a context gets the backend outcome: a detection is shown and saved as "static" when signed in, "no hand" clears, an error keeps |
| `StaticImage.StaticPage.ResetUpload` | frontend/src/pages/StaticImage.tsx:191-195 | clears the image and the prediction |
| `StaticImage.StaticPage.PredictEnabled` | frontend/src/pages/StaticImage.tsx:247 | enabled exactly when no prediction runs |
| `StaticImage.StaticPage.SpeakWord` | frontend/src/pages/StaticImage.tsx:197-202 | speaks the shown word exactly when there is one and speech is supported |
| `PredictionDisplay.ConfidenceColor` | frontend/src/components/PredictionDisplay.tsx:13-17 | green exactly at 0.8 and above, yellow exactly in [0.6, 0.8), red exactly below 0.6 |
| `PredictionDisplay.ConfidenceColorMonotone` | frontend/src/components/PredictionDisplay.tsx:13-17 | a higher confidence never gets a lower tier |
| `PredictionDisplay.Render` | frontend/src/components/PredictionDisplay.tsx:25-51 | the card shows the word, badge and bar share the tier colour, and the Speak button appears exactly when a handler is given |
| `Raster.WhiteBackground` | backend/app.py:32 | 400x400x3 values, all 255 |
| `Raster.Canvas.FromPixels` | backend/app.py:46 | a fresh buffer holding a copy of the given image, nothing drawn |
| `Raster.Canvas.Fill` | backend/server.py:60 | every value of the buffer becomes `v`, in place |
| `Raster.Canvas.DrawLine` | backend/app.py:53 | appends one line to the drawing |
| `Raster.Canvas.DrawCircle` | backend/app.py:70 | appends one circle to the drawing |
| `Skeleton.CentringOffset` | backend/app.py:48-49 | `((400 - extent) // 2) - 15`: centres the extent to within one pixel, then moves 15 px |
| `Skeleton.StrokesFollowBones` | backend/app.py:51-70 | the drawing is 21 lines, one per bone of the hand in order, then 21 circles, one per landmark |
| `Skeleton.StrokesReadFirst21` | backend/app.py:51-70 | only landmarks 0..20 are read: hands that agree there are drawn alike |
| `Skeleton.ChainAt` | backend/app.py:52-61 | the k-th segment of a finger loop joins landmarks lo + k and lo + k + 1 |
| `Skeleton.JointsAt` | backend/app.py:69-70 | the k-th circle sits on landmark k |
| `Skeleton.DrawChain` | backend/app.py:52-61 | the loop appends the finger's segments in order |
| `Skeleton.DrawJoints` | backend/app.py:69-70 | the loop appends one circle per landmark, in order |
| `Skeleton.DrawSkeleton` | backend/server.py:73-91 | a fresh canvas receives exactly the skeleton's strokes |
| `Vision.SliceLen` | backend/app.py:100 | Python slicing of length n takes `stop - start` items for in-range bounds and none when `stop <= start` |
| `AppBackend.CropWindow` | backend/app.py:96-99 | the window lies in the frame and, for a box inside the frame, contains it with at most 29 px added per side |
| `AppBackend.CropEmptyIff` | backend/app.py:100-102 | with non-negative upper bounds the crop is empty exactly when a lower bound reaches its upper bound |
| `AppBackend.PredictReply` | backend/app.py:75-133 | an undecodable image gives `ok: false`; no hand or an empty crop gives `detected: false`; `detected` is true exactly when the skeleton is drawn and the rule character is not blank, and then carries that character and its confidence; otherwise `char` is "" |
| `AppBackend.DrawSkeletonOnWhite` | backend/app.py:40-72 | a fresh copy of the white background holding exactly the skeleton's strokes, centred by the given extent |
| `AppBackend.Predict` | backend/app.py:75-133 | the reply is PredictReply; a canvas is drawn exactly when the hand is found on the crop, centred by the crop hand's box |
| `ServerBackend.CropWindow` | backend/server.py:46-51 | the same bounds as app.py's crop |
| `ServerBackend.SameCropAsApp` | backend/server.py:46-51 | both backends cut the same window |
| `ServerBackend.BuildSkeletonImage` | backend/server.py:36-93 | white.jpg is missing exactly when it is reached and absent; no image exactly on an early exit or a missing file; a built image is all 255 with exactly the skeleton drawn, centred by the full-frame box |
| `ServerBackend.ArgMax` | backend/server.py:99 | the first index holding the largest probability |
| `ServerBackend.PredictLetter` | backend/server.py:95-101 | the class index and its probability, which no other probability exceeds |
| `ServerBackend.PredictReply` | backend/server.py:103-121 | a crash exactly when the upload cannot be opened or white.jpg is missing when reached; no skeleton gives `ok: false` "No hand detected"; success has exactly `ok`, `class_index` and `confidence` from PredictLetter |
| `ServerBackend.Predict` | backend/server.py:103-121 | the handler's reply is PredictReply |
| `Pipeline.AppRepliesOnPages` | frontend/src/pages/RealtimeDetection.tsx:52-76 | on app.py's replies the page raises for an undecodable image, reports "no hand" otherwise, and detects exactly when a non-blank character was found, with that character and confidence |
| `Pipeline.AppRepliesFailInPredictSign` | frontend/src/api/predict.ts:34-48 | `predictSign` fails on every app.py reply |
| `Pipeline.ServerNoHandIsAnError` | backend/server.py:110-111 | server.py's "no hand" reaches every reader as an error "No hand detected" |
| `Pipeline.ServerSuccessWordsDisagree` | frontend/src/api/predict.ts:43-46 | a server.py success reads as "Class N" on the pages and as a letter in `predictSign`, and the two words always differ |
| `Pipeline.ServerCrashOnPages` | frontend/src/pages/RealtimeDetection.tsx:48-50 | a delivered HTTP 500 reads on the pages as "Backend error: 500 Internal Server Error" |
| `Pipeline.ServerCrashInPredictSign` | frontend/src/api/predict.ts:28-30 | a delivered HTTP 500 reads in `predictSign` as "Backend error: 500" |
| `Feedback.FirstIssue` | frontend/src/pages/Feedback.tsx:13-18 | no issue exactly when every trimmed field is within its bounds; the first failing check is reported, field by field and within a field in declaration order (an empty name is "required", a bad e-mail is "invalid" before "too long"); a rating below 1, such as the initial 0, is "missing" and only such a rating is |
| `Feedback.IssueMessage` | frontend/src/pages/Feedback.tsx:14-17 | custom texts exactly for the four checks that declare one |
| `Feedback.ComposeRoundTrip` | frontend/src/pages/Feedback.tsx:54 | the stored message gives back the rating and the trimmed text for every valid rating |
| `Feedback.FilledStarsArePrefix` | frontend/src/pages/Feedback.tsx:210 | the filled stars are the first k, k being the hovered star or else the rating, clamped into 0..5 |
| `Feedback.UserIdOf` | frontend/src/pages/Feedback.tsx:51 | null without a session (or with an empty id); the signed-in user's id exactly when it is non-empty |
| `Feedback.RowFor` | frontend/src/pages/Feedback.tsx:50-55 | the row holds the user id, trimmed name and e-mail, and the composed message |
| `Feedback.FeedbackPage.constructor` | frontend/src/pages/Feedback.tsx:23-28 | empty fields, rating and hovered star 0, not loading |
| `Feedback.FeedbackPage.SubmitEnabled` | frontend/src/pages/Feedback.tsx:274 | enabled exactly when not loading and a star is chosen |
| `Feedback.FeedbackPage.HandleSubmit` | frontend/src/pages/Feedback.tsx:30-75 | reports FirstIssue; an invalid form changes nothing; a valid one ends not loading, and on success appends RowFor and clears the form (the button is then disabled until a star is chosen), on error keeps it and the button enabled |
| `History.WithoutId` | frontend/src/pages/History.tsx:67 | keeps only rows of the list with a different id |
| `History.WithoutIdConcat` | frontend/src/pages/History.tsx:67 | filtering keeps the rows' order |
| `History.WithoutIdRemovesExactlyMatches` | frontend/src/pages/History.tsx:67 | exactly the rows with the id are dropped; every other row keeps its number of copies |
| `History.WithoutIdNoMatch` | frontend/src/pages/History.tsx:67 | a list without the id is unchanged |
| `History.WithoutIdIdempotent` | frontend/src/pages/History.tsx:67 | deleting the same id twice is deleting it once |
| `History.BadgeVariant` | frontend/src/pages/History.tsx:112 | "default" exactly for "realtime", otherwise "secondary" |
| `History.HistoryPage.constructor` | frontend/src/pages/History.tsx:22-23 | empty list, loading |
| `History.HistoryPage.View` | frontend/src/pages/History.tsx:94-105 | loading screen exactly while loading; the empty screen exactly for an empty loaded list; otherwise the list |
| `History.HistoryPage.FetchHistory` | frontend/src/pages/History.tsx:29-52 | no session: go to "/auth", nothing changes; otherwise loading ends, an error keeps the list, null data gives the empty list |
| `History.HistoryPage.DeletePrediction` | frontend/src/pages/History.tsx:54-73 | on success the list becomes WithoutId of the old list; on error it is unchanged |
| `Profile.LastDot` | frontend/src/pages/Profile.tsx:88 | the index of the last '.', or none when there is none |
| `Profile.FileExtension` | frontend/src/pages/Profile.tsx:88 | the text after the last '.', or the whole name; never contains '.' |
| `Profile.StoragePath` | frontend/src/pages/Profile.tsx:89 | the path is the user's id, '/', the random token, '.' and the extension, in that order |
| `Profile.StoragePathExtension` | frontend/src/pages/Profile.tsx:88-89 | the extension of a stored path is the one it was stored under, whatever dots the id or token hold |
| `Profile.FallbackInitial` | frontend/src/pages/Profile.tsx:140 | one character: "U" for an empty name, else the first character upper-cased |
| `Profile.ProfilePage.constructor` | frontend/src/pages/Profile.tsx:15-18 | not loading, empty fields, not uploading |
| `Profile.ProfilePage.SaveEnabled` | frontend/src/pages/Profile.tsx:176 | enabled exactly when not loading |
| `Profile.ProfilePage.UploadEnabled` | frontend/src/pages/Profile.tsx:149-156 | enabled exactly when not uploading |
| `Profile.ProfilePage.FetchProfile` | frontend/src/pages/Profile.tsx:24-41 | no session: go to "/auth"; a row's fields are shown, null or empty as "" |
| `Profile.ProfilePage.UpdateProfile` | frontend/src/pages/Profile.tsx:43-67 | without a session it returns with `loading` still raised, so Save stays disabled; otherwise it writes the user's username and avatar address and ends not loading, Save enabled again |
| `Profile.ProfilePage.UploadAvatar` | frontend/src/pages/Profile.tsx:69-116 | the flag ends false and the upload controls are enabled again on every path; a signed-in user's file over 2 MB is refused; otherwise it is sent to StoragePath with the file's extension; the avatar changes only after an accepted upload |

## Left out

- The JSON layer: values of the wrong runtime type are not modelled. A reply field is either absent or null (`None`) or well-typed. Examples left out: a non-string `final_char` (`backend/app.py:124`'s `isinstance`), a non-integer `class_index`, and `Number(...)` of a non-number (NaN).
- app.py's `top` field in the reply: no reader uses it.
- `fetch` rejection and `res.json()` parse errors: they only become toasts.
- OpenCV's rasterisation of lines and circles: recorded as strokes, not pixels. Also not modelled: `cv2.flip`, `cv2.resize`, colour conversion and the image decoders, whose results are parameters.
- The hand detector, the CNN and `predict_with_rules`: foreign code, whose results are parameters.
- A crash in server.py (the missing white.jpg at `backend/server.py:57`, or an upload PIL cannot open at `backend/server.py:106`) produces a 500 without CORS headers: `CORSMiddleware` (`backend/server.py:19-25`) sits inside the error handler. The pages post cross-origin, so the browser rejects that fetch, and fetch rejection is not modelled. The crash lemmas state only how a delivered 500 would read.
- The hand detector is assumed to report 21 landmarks per hand: the backends' `requires` on `lmList`. With fewer, `backend/app.py:53-70` and `backend/server.py:73-91` would raise `IndexError`, which is not modelled.
- Toasts, navigation beyond the "/auth" redirect, `speechSynthesis` beyond the word handed to it, and the file input's reset.
- The `useEffect` cleanup that stops the camera. It captures the stale `stream` of the first render, so what it releases depends on React's closure semantics, which are not modelled.
- Interleaving of concurrent handler runs and stale React closures: each handler runs as one atomic step.
- The confidence's `toFixed(1)` text and the bar's width string.
- The database's ordering and row-level scoping: the history query's result is a parameter.
- Supabase storage: `Math.random()` (a text token parameter) and `getPublicUrl` (a function parameter).
- `Feedback.FirstIssue`: zod's e-mail pattern is a parameter, and zod's default messages for the checks without a custom one are not modelled.
- `Feedback.FirstIssue`: lengths are counted in characters, not UTF-16 code units.
- `Strings.ToUpperAscii`: only ASCII letters are upper-cased, whereas `toUpperCase` also maps other scripts.
- `Profile.FallbackInitial`: only ASCII letters are upper-cased, and `charAt(0)` is modelled as the first character, not the first UTF-16 code unit (a name starting outside the Basic Multilingual Plane shows a lone surrogate in the source).
- `Feedback.ComposeRoundTrip`: proved for the ratings the schema accepts (1 to 5), the only ones that reach the insert.
