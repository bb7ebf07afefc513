# reels-pro in Dafny

A model of the decision logic of reels-pro, a Next.js application for sharing short videos
("reels"). Each module follows one source file.

- `Middleware` (`middleware.js`) is the route gate in front of the pages.
  - Anonymous visitors to `/upload…` are sent to `/login?callbackUrl=<path>`.
  - Signed-in visitors to `/login…` or `/register…` are sent home.
  - The `config.matcher` selects which paths the gate runs for.
- `Auth` (`src/lib/auth.js`) covers credential sign-in and the session callbacks.
  - `authorize` checks, in order: missing input, unknown email, wrong password.
  - The `jwt` and `session` callbacks copy the user id into the token and then into the session. They update objects in place, so the token and the session are classes.
  - Also modelled: the thirty-day session lifetime.
- `VideoSchema` (`src/models/Video.js`) is what `Video.create` stores or rejects.
  - Title and description are trimmed and have length bounds.
  - `videoUrl` and `user` are required.
  - `thumbnailUrl` and `controls` have defaults.
  - The transformation defaults field by field, and quality must be 1–100.
- `VideosRoute` (`src/app/api/videos/route.js`) holds the two handlers.
  - POST checks the token and the required fields, fills defaults, sets the owner and creates the document.
  - GET lists the documents newest first, each with its owner's email.
  - The collection is the class `VideoStore`, holding a sequence of documents in insertion order.
- `LoginPage`, `RegisterPage` and `UploadPage` (the three `page.jsx` files) hold the client forms.
  - Form state is a class whose handlers update it.
  - Checks run before a request.
  - Each form builds the body it sends.
  - The result the user sees is a value: a toast, a navigation, the sign-up prompt.
- `FileUpload` (`src/components/FileUpload.jsx`) is the upload widget.
  - It has the MIME allow-lists and size limits of video and image mode.
  - It tracks the `dragActive`, `isUploading` and `progress` state through drag, drop and upload events.
- `VideoCard` (`src/components/VideoCard.jsx`) is the player card.
  - It derives the file path under the ImageKit endpoint, the transformation fallbacks and the `controls` default.
  - Its play/pause and mute toggles drive the player element.
- Shared modules:
  - `JsString`: the JavaScript string operations the code relies on (`||` on strings, `startsWith`, `indexOf`/`includes`, `replace` with a string pattern, `trim`, `toLowerCase`).
  - `Wrappers`: `Option` and `Result`.
  - `UiFeedback`: toasts and API outcomes.

Parts of the system outside the model appear as parameters:

- The user collection is a map from email to account.
- `bcrypt.compare` is a function parameter `compare`.
- `getToken` is an `Option<Claims>`.
- The outcome of a request the pages send is an `ApiResult` or a `SignInResult` parameter.
- Database availability in the video routes is a boolean.
- The generated id and the clock are numbers passed in.

The store's ids are insertion positions.

The schema (`min: 1`, `max: 100`) rejects out-of-range values, so creation fails. The model follows the schema: `VideoSchema.QualityRejectedNotClamped`.

Two consequences of the code as written are stated as lemmas.

- A whitespace-only title passes the POST handler's `!title` test, but the schema trims it to "" and rejects it. The request then fails with 500, not 400 (`VideosRoute.BlankTitleServerError`).
- The "Please enter email and password" error contains "password". If NextAuth passes the thrown message through to `signIn`, the login page therefore shows it as "Invalid password" (`LoginPage.MissingInputMessageClassified`).

## Model

| member | source | states |
|---|---|---|
| JsString.OrElse | src/app/api/videos/route.js:56-58 | `s \|\| fallback` is the fallback exactly when `s` is missing or "", and otherwise `s` itself, which is then non-empty |
| JsString.IndexOf | src/app/login/page.jsx:44-48 | the first occurrence: the pattern occurs at the result, nowhere before it, and `None` only when it occurs at no position |
| JsString.OccurrenceIncluded | src/app/login/page.jsx:44-48 | `includes` holds whenever the pattern occurs at some position |
| JsString.IncludedCharsOccur | src/app/login/page.jsx:44-48 | every character of an included string occurs in the including string |
| JsString.ReplaceFirst | src/components/VideoCard.jsx:25 | `replace` with a string pattern replaces only the first occurrence and leaves the string unchanged when there is none |
| JsString.ReplacePrefixDropsIt | src/components/VideoCard.jsx:24-25 | replacing a prefix by "" leaves exactly the rest of the string |
| JsString.Trim | src/models/Video.js:8 | `trim` never lengthens, and neither end of its result is whitespace |
| JsString.TrimShape | src/models/Video.js:8 | the trimmed string is the part of the input between a leading and a trailing run of whitespace |
| JsString.TrimEmptyIffBlank | src/app/upload/page.jsx:39 | a string trims to "" exactly when all of it is whitespace |
| JsString.TrimIdempotent | src/models/Video.js:8 | trimming an already trimmed string changes nothing |
| JsString.ToLowerCase | src/app/login/page.jsx:44-48 | same length, each character lower-cased |
| JsString.LowerCaseOccurrence | src/app/login/page.jsx:44-48 | a lower-case letter occurs in the lower-cased text exactly when it occurs in either case in the original |
| Middleware.Gate | middleware.js:4-36 | the decision is pass, login redirect or home redirect; login redirect iff protected path and no token; home redirect iff login/register path and a token |
| Middleware.UploadPrefixIsProtected | middleware.js:13-25 | any path starting with "/upload" (also "/uploads") goes to `/login` with `callbackUrl` the exact path when anonymous, and passes when signed in |
| Middleware.AuthPagesForAnonymousOnly | middleware.js:27-35 | login and register paths pass for anonymous visitors and redirect signed-in ones to "/" |
| Middleware.UnlistedPathsPass | middleware.js:16-35 | a path in neither list passes whatever the token |
| Middleware.TokenContentsIgnored | middleware.js:21-33 | only the presence of a token matters, never its claims |
| Middleware.HandleRequest | middleware.js:38-40 | paths outside the matcher are never gated; matched paths get the gate's decision |
| Middleware.MatcherApplies | middleware.js:38-40 | every path the matcher selects is one the gate treats specially, and it is exactly one of protected or login/register |
| Middleware.MatchedPathsPolicy | middleware.js:13-40 | under the matcher, login redirect iff "/upload" or below and anonymous; home redirect iff exactly "/login" or "/register" and signed in |
| Middleware.UploadsSiblingNotGated | middleware.js:13-40 | "/uploads" counts as protected but the matcher never runs the gate for it |
| Auth.Authorize | src/lib/auth.js:14-40 | a success names an account that is in the store: its id text and the exact input email |
| Auth.AuthError.Message | src/lib/auth.js:16-33 | each failure throws a non-empty text, so the page can never read a failure as a success |
| Auth.MessagesDistinct | src/lib/auth.js:16-33 | the three failures throw three different texts |
| Auth.MissingInputRejectedFirst | src/lib/auth.js:15-19 | missing email or password fails with "Please enter email and password" whatever the store holds |
| Auth.UnknownEmailRejected | src/lib/auth.js:21-25 | an email with no exactly matching account fails with the no-account error |
| Auth.WrongPasswordRejected | src/lib/auth.js:27-34 | a known email whose digest does not match fails with the wrong-password error, never the no-account one |
| Auth.AuthorizeSucceedsIff | src/lib/auth.js:21-39 | sign-in succeeds exactly for a known email whose digest matches, and returns exactly `{id, email}` |
| Auth.SessionMaxAgeIsThirtyDays | src/lib/auth.js:43-46 | the session lifetime is 2,592,000 seconds |
| Auth.JwtUpdate | src/lib/auth.js:48-53 | with a user the token's id becomes the user's id; without one the claims are unchanged; the email is always kept |
| Auth.JwtCallback | src/lib/auth.js:48-53 | the callback updates the token in place as `JwtUpdate` says and returns the same token |
| Auth.LatestSignInWins | src/lib/auth.js:48-53 | over any run of `jwt` callbacks the token's id is that of the latest sign-in, refreshes without a user leave it, and the email is kept |
| Auth.SessionCallback | src/lib/auth.js:54-59 | with a token, `session.user.id` becomes `token.id`; without one it is unchanged; the email is untouched |
| VideoSchema.Create | src/models/Video.js:3-53 | creation fails exactly when some path is violated, reporting every violation; a stored document is well formed, with the given id and `createdAt` the clock |
| VideoSchema.Violation.Message | src/models/Video.js:5-18 | the title, description and video URL paths carry the schema's own non-empty messages; the quality bounds and the owner use the library's built-in ones |
| VideoSchema.CreateSucceedsIff | src/models/Video.js:3-48 | creation succeeds iff the trimmed title is non-empty and at most 100, the trimmed description at most 500, the URL present, the quality in 1..100 and the owner given |
| VideoSchema.CreateStoresInput | src/models/Video.js:5-53 | a stored document holds the trimmed title and description, the given URL and owner, `thumbnailUrl` "" and `controls` true when missing, the defaulted transformation, and both timestamps equal to the clock |
| VideoSchema.BlankTitleRejected | src/models/Video.js:5-8 | a whitespace-only title fails `required` after trimming |
| VideoSchema.LongTitleRejected | src/models/Video.js:5-10 | a title over 100 characters after trimming is rejected, not cut |
| VideoSchema.LongDescriptionRejected | src/models/Video.js:11-15 | a description over 500 characters after trimming is rejected |
| VideoSchema.RequiredPathsRejected | src/models/Video.js:16-48 | a missing or empty video URL, or a missing owner, is rejected |
| VideoSchema.QualityRejectedNotClamped | src/models/Video.js:37-42 | quality below 1 or above 100 is rejected; a stored quality is exactly the one given |
| VideoSchema.TransformationDefaults | src/models/Video.js:28-43 | no transformation gives 1920 x 1080 at 80; each missing field takes its own default |
| VideosRoute.CreateInput | src/app/api/videos/route.js:54-66 | title and video URL are passed on as given and the owner is the token's id; description, thumbnail, controls and transformation are always present, a truthy description or thumbnail and any given controls or transformation kept |
| VideosRoute.HandlePost | src/app/api/videos/route.js:30-83 | something is created iff the status is 201; statuses are 201, 400, 401 or 500; a created document needs a token, a body and the database, and is what the schema makes of the handler's input |
| VideosRoute.NoTokenUnauthorized | src/app/api/videos/route.js:32-39 | without a token the answer is 401 "Unauthorized" and nothing is created |
| VideosRoute.MissingFieldsBadRequest | src/app/api/videos/route.js:45-50 | with a token, a falsy title or video URL gives 400 and nothing is created |
| VideosRoute.BlankTitleServerError | src/app/api/videos/route.js:45-82 | a whitespace-only title passes the handler's check and then fails in the schema, giving 500 |
| VideosRoute.SchemaMessagesHidden | src/models/Video.js:5-18 | the messages the schema declares for its paths never reach the client: a rejected document gets the handler's generic 500 text |
| VideosRoute.FailuresAreGeneric | src/app/api/videos/route.js:76-82 | an unparsable body, a database failure or a schema violation all give 500 "Failed to create video" |
| VideosRoute.CreatedVideoFields | src/app/api/videos/route.js:54-66 | the owner is `token.id`; a missing description or thumbnail is ""; `controls` is true only when undefined, and an explicit false is kept; a missing transformation is 1920 x 1080 at 80 |
| VideosRoute.CreatedIff | src/app/api/videos/route.js:37-75 | a POST is created exactly when there is a token, both fields are truthy and the schema accepts the document |
| VideosRoute.InsertByDate | src/app/api/videos/route.js:12 | inserting into a newest-first list keeps it newest first and adds exactly that video |
| VideosRoute.SortNewestFirst | src/app/api/videos/route.js:12 | the sorted list is newest first and a permutation of the documents |
| VideosRoute.Populate | src/app/api/videos/route.js:13 | the owner is `{id, email}` exactly when the user exists, else null |
| VideosRoute.ListNewestFirst | src/app/api/videos/route.js:11-14 | the listing holds every document once, newest first, each with its populated owner |
| VideosRoute.InsertOldestAppends | src/app/api/videos/route.js:12 | a video older than every listed one goes to the end |
| VideosRoute.SequentialCreatesListedNewestFirst | src/app/api/videos/route.js:11-12 | videos created at increasing times are listed in exactly the reverse order of creation |
| VideosRoute.ListedAreWellFormed | src/app/api/videos/route.js:11-14 | every video listed from valid documents is well formed |
| VideosRoute.AppendKeepsValid | src/app/api/videos/route.js:54-66 | appending a well-formed document with the next id keeps every id its position and every document well formed |
| VideosRoute.VideoStore.Post | src/app/api/videos/route.js:30-83 | answers as `HandlePost` does and appends the created document and nothing else, keeping the store valid |
| VideosRoute.VideoStore.Get | src/app/api/videos/route.js:7-27 | 200 with the newest-first listing, every listed video well formed when the store is valid, or 500 "Failed to fetch videos" when the database fails |
| LoginPage.CallbackUrl | src/app/login/page.jsx:12 | the callback URL is the parameter when truthy and "/" otherwise, never "" |
| LoginPage.ClassifyError | src/app/login/page.jsx:43-52 | a missing-account reading needs a 'u' in the text; a bad-password reading needs "password" in it in some case; any other text is kept verbatim and does not mention "password" |
| LoginPage.PromptPhrasesNeedU | src/app/login/page.jsx:44-47 | a text containing either prompt phrase in any case has a 'u' in either case |
| LoginPage.SubmitOutcome | src/app/login/page.jsx:31-63 | navigation to the callback URL, with "Welcome back!", happens exactly when `signIn` returned no truthy error; the sign-up prompt shows exactly for an error read as a missing account; a `signIn` that throws shows "Something went wrong. Please try again." and nothing else |
| LoginPage.PromptPhraseShowsPrompt | src/app/login/page.jsx:44-47 | any text containing "no account found" or "sign up" in any case shows the account-not-found toast and the sign-up prompt, without navigating |
| LoginPage.PasswordWithoutPhrasesClassified | src/app/login/page.jsx:48-49 | any text mentioning "password" in any case, and neither prompt phrase, is read as a bad password and shows "Invalid password. Please try again." without the prompt |
| LoginPage.OtherErrorsVerbatim | src/app/login/page.jsx:50-51 | an error with none of the phrases is shown as it is |
| LoginPage.NoULeavesNoPrompt | src/app/login/page.jsx:44-47 | text without the letter u in either case can never trigger the sign-up prompt |
| LoginPage.NoAccountMessageClassified | src/app/login/page.jsx:44-47 | the no-account message from `authorize` is read as a missing account |
| LoginPage.PasswordMentionClassified | src/app/login/page.jsx:48-49 | text that mentions "password" in any case and has no u is read as a bad password |
| LoginPage.WrongPasswordMessageClassified | src/app/login/page.jsx:48-49 | the wrong-password message from `authorize` is read as a bad password |
| LoginPage.MissingInputMessageClassified | src/app/login/page.jsx:48-49 | the missing-input message from `authorize` is also read as a bad password |
| LoginPage.ClassifiedErrorOutcome | src/app/login/page.jsx:43-52 | a missing-account error shows the sign-up toast and prompt; a bad-password error shows the invalid-password toast without it |
| LoginPage.SignInOutcomes | src/app/login/page.jsx:36-57 | end to end with `authorize`: success navigates; no account prompts to sign up; a wrong password or missing input shows "Invalid password" |
| LoginPage.LoginForm.constructor | src/app/login/page.jsx:12-19 | empty fields, not loading, no prompt, the defaulted callback URL |
| LoginPage.LoginForm.HandleChange | src/app/login/page.jsx:21-29 | only the edited field changes, and the prompt is hidden |
| LoginPage.LoginForm.HandleSubmit | src/app/login/page.jsx:31-63 | sends the current email and password, shows the prompt exactly as the outcome says, and always ends not loading |
| RegisterPage.PrefillEmail | src/app/register/page.jsx:12 | the email field starts with the `email` parameter, or "" |
| RegisterPage.PasswordError | src/app/register/page.jsx:31-39 | no error iff the passwords match and are at least 6 long; a mismatch is reported before the length |
| RegisterPage.SubmitOutcome | src/app/register/page.jsx:28-56 | a request is sent exactly when both checks pass, and it carries only email and password; a refused check toasts its own message; only success navigates to "/login", with "Account created successfully! Please sign in."; a failure shows the error's message or "Registration failed. Please try again." |
| RegisterPage.MismatchReportedFirst | src/app/register/page.jsx:31-34 | mismatched passwords are refused with "Passwords do not match" and nothing is sent, even when short |
| RegisterPage.LengthBoundary | src/app/register/page.jsx:36-39 | five characters are refused without a request; exactly six are sent |
| RegisterPage.RegisterForm.constructor | src/app/register/page.jsx:12-19 | prefilled email, empty passwords, not loading |
| RegisterPage.RegisterForm.HandleChange | src/app/register/page.jsx:21-26 | only the edited field changes |
| RegisterPage.RegisterForm.HandleSubmit | src/app/register/page.jsx:28-56 | outcome as `SubmitOutcome`; loading is untouched when a check fails and false after a request |
| UploadPage.BuildPayload | src/app/upload/page.jsx:31-58 | no file gives "Please upload a video first" first; with a file, an error iff the trimmed title is ""; the body has both texts trimmed, the file's URLs, the checkbox and the 1920 x 1080 at 80 transformation |
| UploadPage.BlankTitleRefused | src/app/upload/page.jsx:39-42 | a whitespace-only title is refused with "Please enter a title" |
| UploadPage.SubmitOutcome | src/app/upload/page.jsx:31-68 | a request is sent exactly when the checks pass; only success toasts "Reel published successfully!" and goes to "/"; a failure shows the error message or "Failed to publish reel" |
| UploadPage.StoredAsSent | src/app/upload/page.jsx:47-58 | a page body whose texts are already trimmed and within bounds is stored exactly as sent, owned by the token's id |
| UploadPage.PublishedReelStored | src/app/upload/page.jsx:47-58 | a body the page builds and a signed-in user posts is stored with the trimmed title and description, the uploaded URLs, the checkbox and the fixed transformation |
| UploadPage.UploadForm.constructor | src/app/upload/page.jsx:11-17 | empty texts, `controls` true, no upload, not submitting |
| UploadPage.UploadForm.HandleChange | src/app/upload/page.jsx:19-25 | a text input stores its value, the checkbox its checked state, and nothing else changes |
| UploadPage.UploadForm.HandleUploadSuccess | src/app/upload/page.jsx:27-29 | the finished upload is remembered and nothing else changes |
| UploadPage.DisabledWithoutUploadSendsNothing | src/app/upload/page.jsx:181 | when the publish button is disabled for want of an upload, a submit sends nothing and shows "Please upload a video first" |
| UploadPage.UploadForm.SubmitEnabled | src/app/upload/page.jsx:181 | the publish button is enabled only with a finished upload and no submission under way, and then only a blank title can stop the submit |
| UploadPage.UploadForm.HandleSubmit | src/app/upload/page.jsx:31-68 | outcome as `SubmitOutcome`; submitting is untouched when a check fails and false after a request |
| FileUpload.ValidateFile | src/components/FileUpload.jsx:24-42 | a file is accepted exactly when present, of an allowed type for the mode and within the mode's size limit; a missing file gives "No file selected" |
| FileUpload.SizeLimitInclusive | src/components/FileUpload.jsx:35-39 | a file of exactly the limit is accepted; one byte more is rejected |
| FileUpload.ModeLimits | src/components/FileUpload.jsx:8-22 | video mode, the default, allows 4 video types up to 104,857,600 bytes; any other mode allows 4 image types up to 10,485,760 bytes |
| FileUpload.WrongTypeRejected | src/components/FileUpload.jsx:30-33 | a type outside the mode's list is rejected whatever the size |
| FileUpload.SuccessPayload | src/components/FileUpload.jsx:68-75 | the payload copies the response's fields, with a missing or empty thumbnail as "" |
| FileUpload.Uploader.constructor | src/components/FileUpload.jsx:14-18 | not uploading, progress 0, no drag highlight |
| FileUpload.Uploader.HandleUploadStart | src/components/FileUpload.jsx:44-55 | an accepted file starts the upload at 0%; a refused one clears the input and leaves the upload state alone |
| FileUpload.Uploader.HandleUploadProgress | src/components/FileUpload.jsx:57-61 | the reported percentage becomes the progress and is passed on |
| FileUpload.Uploader.HandleUploadSuccess | src/components/FileUpload.jsx:63-75 | the upload ends at 100% with "Upload successful!" and hands on the success payload |
| FileUpload.Uploader.ResetProgress | src/components/FileUpload.jsx:78 | the progress goes back to 0 and nothing else changes |
| FileUpload.Uploader.HandleUploadError | src/components/FileUpload.jsx:81-86 | the upload ends at 0% and the toast is the error message, or the generic one when it is empty |
| FileUpload.Uploader.HandleDrag | src/components/FileUpload.jsx:88-96 | `dragenter`/`dragover` turn the highlight on, `dragleave` turns it off, any other event leaves it |
| FileUpload.Uploader.HandleDrop | src/components/FileUpload.jsx:98-113 | the highlight goes off; a dropped file is validated and handed on exactly when accepted and the input is mounted |
| VideoCard.FilePath | src/components/VideoCard.jsx:21-28 | a missing or empty URL gives ""; a URL not under the endpoint is returned unchanged |
| VideoCard.FilePathStripsEndpoint | src/components/VideoCard.jsx:24-26 | a URL under the endpoint loses exactly that prefix, so endpoint + path gives the URL back |
| VideoCard.NoEndpointKeepsUrl | src/components/VideoCard.jsx:23-27 | with no endpoint configured every URL is used unchanged |
| VideoCard.NumberOr | src/components/VideoCard.jsx:57-59 | the fallback is used exactly for a missing value or 0; otherwise the number is kept |
| VideoCard.PlayerTransformation | src/components/VideoCard.jsx:55-61 | with no transformation every field is its fallback; otherwise each field is its value or its fallback |
| VideoCard.ZeroFallsBack | src/components/VideoCard.jsx:57-59 | a height or width of 0, which the schema stores, is shown as "1920" or "1080"; a quality of 0 reaching the card would show "80"; any non-zero value is kept |
| VideoCard.PlayerControls | src/components/VideoCard.jsx:16 | `controls` is true only when missing; a given value is kept |
| VideoCard.Poster | src/components/VideoCard.jsx:66 | no poster exactly for a missing or empty thumbnail |
| VideoCard.VideoCardState.constructor | src/components/VideoCard.jsx:7-9 | not playing, muted |
| VideoCard.VideoCardState.HandlePlayPause | src/components/VideoCard.jsx:30-39 | with a mounted player it is paused if playing and played otherwise, and the flag flips; without one nothing changes |
| VideoCard.VideoCardState.HandleMuteToggle | src/components/VideoCard.jsx:41-46 | with a mounted player the flag flips and the element's `muted` matches it; without one nothing changes |
| VideoCard.VideoCardState.OnPlay | src/components/VideoCard.jsx:68 | the player's play event sets the flag |
| VideoCard.VideoCardState.OnPause | src/components/VideoCard.jsx:69 | the player's pause event clears the flag |

## Left out

- I/O is not modelled: the network, `fetch`, the ImageKit upload service, MongoDB and `dbConnect`.
  - Each enters as a parameter: database availability, the request outcome, the upload response.
- `src/lib/api-client.js`, `src/app/page.js`, `Header.jsx`, `VideoFeed.jsx`, `Providers.jsx` and `layout.js` are not part of this model. They are a transport wrapper, a server-side copy of the listing query, and presentation and configuration.
- The `/api/auth/register` endpoint and the `User` model are not part of this model. The register page sees only the endpoint's outcome.
- Library internals are opaque:
  - bcrypt hashing and comparison is the parameter `compare`;
  - JWT encoding, signing and expiry, and `getToken`, give an `Option<Claims>`.
- LoginPage.SignInOutcomes: assumes NextAuth hands the message of the error `authorize` throws to the client unchanged, as the `error` string `signIn` returns. This lemma, and the sign-up prompt and "Invalid password" readings of the `authorize` messages, hold only under that assumption. A NextAuth version that reports a thrown error to the client as a generic error code would reach neither reading, only the verbatim toast of that code.
- Auth.Authorize: the user store is assumed reachable. A failing `dbConnect` or `User.findOne` throws an error of its own, which then reaches `signIn` and the login page; that error is not modelled.
- MongoDB ids and timestamps are numbers supplied by the caller. The `ObjectId` cast of `token.id` is not checked: any owner text is accepted.
- Video.js sets no order for videos with equal `createdAt`, so the model promises only newest-first order and a permutation. The Mongo index on `createdAt` is not modelled.
- A thrown schema error carries mongoose's own message text for the `user` and `quality` paths. That text is not modelled, because the handler replaces every error with a generic one.
- String lengths count characters. JavaScript counts UTF-16 code units, so a title with characters outside the Basic Multilingual Plane is measured differently.
- JsString.ToLowerCase: lower-cases only ASCII letters. JavaScript also lower-cases non-ASCII letters, so that part of `toLowerCase` is not modelled. The classification lemmas only use messages in ASCII.
- JavaScript numbers are integers in the model: transformation height, width and quality, the file size and the progress percentage. A fractional value, such as a quality of 50.5 that the schema would accept and store, cannot be expressed.
- The request body is assumed to be JSON of the expected types. A non-string title, a non-boolean `controls` or a non-object transformation is not modelled, and neither is a `null` field, which JavaScript treats differently from a missing one.
- FileUpload.Uploader.HandleUploadProgress: takes the percentage as given. `Math.round(loaded / total * 100)` is floating-point arithmetic and is not modelled.
- Not modelled as behaviour:
  - `setTimeout` delays, so the progress reset is a separate method the caller invokes;
  - async ordering and concurrent requests, so each request is one sequential call;
  - the browser's own form constraint checks, which run before `handleSubmit` and are not modelled: `required` on the login fields (src/app/login/page.jsx:122, 137), `required` and `minLength={6}` on the register fields (src/app/register/page.jsx:98, 113-114, 130-131), and `required`, `maxLength={100}` and `maxLength={500}` on the upload texts (src/app/upload/page.jsx:139-140, 160). In the running page a typed password shorter than six characters is stopped by the browser, so the mismatch message that `RegisterPage.MismatchReportedFirst` shows for short mismatched passwords does not appear there. The `maxLength` attributes are what make the length requirements of `UploadPage.PublishedReelStored` hold for typed input;
  - React re-rendering, JSX, `toLocaleDateString`, `DataTransfer`/`dispatchEvent`, `router.refresh`;
  - `encodeURIComponent` in the sign-up link and the URL encoding of redirect queries.
- Toasts and navigations are values in the outcome, not effects.
- The register link that the login page builds from the typed email is not modelled.
