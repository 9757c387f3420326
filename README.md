# Offer tokens and the upload/create gate, modelled in Dafny

This project models two parts of a landing site for an AI video product.

**The backend's one-time offer-token flow** (`backend/server.js`):

- A signed-in user asks `POST /api/create-offer-token` for a token. The server stores `{userId, used: false, createdAt}` under a fresh 64-hex-digit token in its in-memory `offerTokens` map.
- The offer provider later sends the browser to `GET /offer-complete?token=…`. `handleOfferComplete` runs a fixed chain of checks:
  - the token is a non-empty string;
  - the caller is signed in and has a user id;
  - the token is known and unused;
  - the token belongs to the caller;
  - the token is at most 15 minutes old.

  Only when every check passes does it mark the token used and set the session's `offerCompleted` flag. Every refusal redirects to the same `FRONTEND_URL + "/?offer_error=1"`.
- `/auth/me` reports that flag.

The same file has three pure helpers, also modelled:

- the name an upload is stored under;
- the MIME filter for uploads;
- the CORS origin chooser.

**The page script's upload/create gate** (`backend/public/script.js`):

- There are two upload slots (`character`, `video`). Each has one of four states and at most one request that owns it.
- The create button is enabled only when both uploads have succeeded. A lock stops the create process from starting twice.
- Events from a request that no longer owns its slot are ignored.
- The pure helpers are the page router, the backend-origin chooser and the redirect URL given to the offer locker.

Modules:

- `OfferTokens` (`offer_tokens.dfy`):
  - pure specification functions `Check`, `Consume`, `Redeem`, `Issue`, and `Run` over request sequences;
  - the class `OfferServer`, holding the store, with the two handlers written as the source's chain of early returns;
  - the class `Session`, holding the session flag.
- `UploadStorage` (`upload_storage.dfy`) and `CorsOrigin` (`cors_origin.dfy`): the backend's pure helpers.
- `ClientRoutes` (`client_routes.dfy`): the page script's pure builders.
- `UploadGate` (`upload_gate.dfy`): the class `UploadPage`, holding `uploadState`, `uploadXhr`, `createButtonLocked`, the button's `disabled` property and the locker's `redirectUrl`.
- `JsText` (`js_text.dfy`): the JavaScript string operations the code relies on (`indexOf`, `replace`, `toLowerCase`, number-to-string, `startsWith`).

Parameters stand in for the clock, the random token, the result of `req.session.save` and `encodeURIComponent`. The session's view of the caller is the datatype `Caller`.

How the code behaves at its edges, which the model keeps:

- Issuing a token does not look for an existing key; `Map.set` overwrites it.
- Redemption checks and sets `used` synchronously in one event-loop task, so a sequential model is exact.
- There are seven refusal reasons; `NoUserId` is a signed-in caller without a user id.
- `used` is set and the session flag raised *before* `req.session.save`. A failed save therefore redirects to the error page, yet the token is spent.

## Model

| member | source | states |
|---|---|---|
| OfferTokens.Check | backend/server.js:169-197 | redemption is accepted iff the token is a non-empty string, the caller is signed in with an id, the record exists, is unused, is owned by the caller and is at most `OFFER_TOKEN_TTL_MS` old; each refusal reason is exactly "all earlier checks passed and this one failed", in the source's order |
| OfferTokens.Consume | backend/server.js:199 | marking a token used sets only that record's `used`; its owner and creation time and every other record are unchanged |
| OfferTokens.Redeem | backend/server.js:173-200 | a refused redemption leaves the store unchanged; an accepted one consumes exactly the accepted token |
| OfferTokens.Issue | backend/server.js:211-226 | a caller without a user id gets 401 and the store is unchanged; otherwise the token is stored unused, owned by the caller, created now, and no other record changes |
| OfferTokens.IssuedTokenRedeemableByOwner | backend/server.js:211-226 | a freshly issued token is accepted for its owner at any time within the TTL and refused as `WrongOwner` for any other user |
| OfferTokens.SecondRedemptionRejected | backend/server.js:188-199 | after a successful redemption, every later redemption of the same token is refused, as `AlreadyUsed` whenever the caller has a user id |
| OfferTokens.OtherUserRejected | backend/server.js:191-193 | a valid, unused, unexpired token presented by another signed-in user is refused as `WrongOwner` and the store is unchanged |
| OfferTokens.AnonymousNeverRedeems | backend/server.js:176-178 | an unauthenticated redemption is always refused and changes nothing |
| OfferTokens.TtlBoundary | backend/server.js:194-196 | a token exactly `15*60*1000` ms old is accepted; one millisecond older is refused as `Expired` |
| OfferTokens.UsedIsMonotonic | backend/server.js:199-221 | over any run of issuance and redemption requests with fresh tokens, no token disappears and `used` never goes back to false |
| OfferTokens.EachTokenRedeemedAtMostOnce | backend/server.js:184-221 | over any such run, no token is redeemed twice; every redeemed token was unused at the start and is used at the end |
| OfferTokens.AuthMe | backend/server.js:138-151 | `/auth/me` shows a user only to a signed-in caller, and its `offerCompleted` is exactly the session flag |
| OfferTokens.Session.constructor | backend/server.js:149 | a new session's `offerCompleted` flag is unset, so `/auth/me` reports false until a redemption raises it |
| OfferTokens.OfferServer.constructor | backend/server.js:23-24 | the token store starts empty |
| OfferTokens.OfferServer.ErrorUrl | backend/server.js:171 | every refusal goes to a page of the frontend that is not the success page |
| OfferTokens.OfferServer.SuccessUrl | backend/server.js:203 | a completed offer goes to a page of the frontend |
| OfferTokens.OfferServer.CreateOfferToken | backend/server.js:211-227 | the new store and reply are those of `Issue`, and every stored key keeps the 64-hex-digit shape and a non-empty owner |
| OfferTokens.OfferServer.HandleOfferComplete | backend/server.js:169-205 | the store becomes that of `Redeem`; the session flag is raised only on acceptance; the redirect is the success URL only on acceptance with a successful save, and the same error URL otherwise; a token is accepted only if it has the 64-hex-digit shape of an issued token and a non-empty owner |
| JsText.ReplaceFirst | backend/server.js:77 | a string pattern replaces only its first occurrence, and the rest of the string is unchanged |
| JsText.ToLower | backend/server.js:274 | lower-casing keeps the length and maps every ASCII capital to its small letter |
| JsText.IndexOf | backend/server.js:76 | `indexOf` returns -1 iff the pattern occurs nowhere, and otherwise the index of its first occurrence |
| JsText.StartsWith | backend/server.js:275 | `startsWith` holds exactly when `indexOf` finds the prefix at index 0 |
| JsText.Decimal | backend/server.js:270 | the timestamp is rendered as a non-empty digit string without leading zeros |
| JsText.DecimalRoundTrip | backend/server.js:270 | reading back the rendered timestamp gives the original number |
| UploadStorage.SegmentSplit | backend/server.js:267-268 | stem and extension concatenate to the segment; the extension is empty or a single leading dot after a non-empty stem |
| UploadStorage.Extension | backend/server.js:267 | `path.extname` is empty exactly when the name's last segment has no dot after its first character or is `..`; otherwise it is a dot followed by no other dot; it holds no `/` and is a suffix of the last segment |
| UploadStorage.BaseName | backend/server.js:268 | `path.basename(name, ext)` followed by the extension is the last segment; it holds no `/` and is non-empty whenever the extension is not empty |
| UploadStorage.DefaultedBase | backend/server.js:268 | the base is never empty and never holds `/`: the base name when it is non-empty, `"file"` otherwise |
| UploadStorage.Sanitize | backend/server.js:269 | each character outside `[A-Za-z0-9_-]` becomes `_`, and every other character is kept in place |
| UploadStorage.SanitizeProperties | backend/server.js:269 | sanitising yields only safe characters, is idempotent, and leaves an already safe string alone |
| UploadStorage.ShortSafe | backend/server.js:269 | the result has the base's length capped at 80, holds only safe characters, and at each position keeps the base's character if it is safe and has `_` otherwise |
| UploadStorage.HeadAndExtensionSplit | backend/server.js:267-270 | a name made of a head without dots or slashes and an extension of `extname`'s shape is its own last segment, and `extname`/`basename` give back exactly that extension and head |
| UploadStorage.StoredName | backend/server.js:266-271 | the stored name never contains `/`, so the file stays in the upload directory; its `extname` is the original name's `extname`, and its `basename` is the sanitised base, `-` and the decimal time |
| UploadStorage.StoredNameShape | backend/server.js:266-271 | the stored name is a sanitised base of 1 to 80 safe characters (`"file"` when empty), then `-`, the decimal time and the original extension |
| UploadStorage.SafeNameKept | backend/server.js:266-271 | a name whose base is already safe, non-empty and short keeps its base and extension |
| UploadStorage.FileFilter | backend/server.js:273-278 | a file is accepted iff its lower-cased MIME type starts with `image/` or `video/`; otherwise it is refused with the fixed error message |
| UploadStorage.FilterIgnoresCase | backend/server.js:274-275 | a MIME type and its lower-cased form get the same verdict |
| UploadStorage.CapitalisedTypeAccepted | backend/server.js:274-276 | `Video/MP4` is accepted |
| UploadStorage.OtherTypesRefused | backend/server.js:274-277 | a missing type and `text/html` are refused |
| CorsOrigin.AllowedOrigins | backend/server.js:75-78 | the allowed origins are `FRONTEND_URL`, plus, iff it contains `localhost`, the same URL with its first `localhost` replaced by `127.0.0.1` |
| CorsOrigin.ChooseOrigin | backend/server.js:74-84 | the chosen origin is always an allowed one: the request's origin when it is allowed, `FRONTEND_URL` when it is missing or not allowed |
| CorsOrigin.DevelopmentAliases | backend/server.js:76-83 | for a localhost `FRONTEND_URL` the 127.0.0.1 alias is allowed and echoed back, and any third origin gets `FRONTEND_URL` |
| CorsOrigin.ProductionSingleOrigin | backend/server.js:75-83 | without `localhost` in the URL, the only origin ever answered is `FRONTEND_URL` |
| ClientRoutes.PageFromQuery | backend/public/script.js:29-34 | the page is `signup` or `signin` exactly when the query says so, and `home` for anything else, including a missing value |
| ClientRoutes.PageIsFixedPoint | backend/public/script.js:29-34 | routing to the chosen page chooses it again |
| ClientRoutes.BackendOrigin | backend/public/script.js:5-12 | with no location the origin is `http://localhost:3080`; a loopback host gets `protocol//host:3080`; any other host gets the page's own origin |
| ClientRoutes.SameOriginWhenServedByBackend | backend/public/script.js:1-11 | whenever the backend serves the page itself, the script talks to the page's own origin |
| ClientRoutes.OfferRedirectUrl | backend/public/script.js:772 | the offer redirect URL starts with the API base and `/offer-complete?token=`, and what follows is exactly the encoded token |
| UploadGate.ParseState | backend/public/script.js:221-222 | a string is accepted as a state exactly when it is the name of one of the four states |
| UploadGate.SettledState | backend/public/script.js:274-306 | a request ends in success iff it loaded with status 200 and a `success: true` body; every other end is an error |
| UploadGate.UploadPage.constructor | backend/public/script.js:25-27 | at load, both slots are idle and unowned, the button is disabled and the lock is free (also lines 217-219) |
| UploadGate.UploadPage.SyncCreateButton | backend/public/script.js:251-257 | the button is disabled exactly when the two slots are not both successful |
| UploadGate.UploadPage.SetUploadState | backend/public/script.js:221-249 | a name that is not a state changes nothing, so the button keeps its value; a valid one sets the slot and re-syncs the button; the button is never enabled unless both slots succeeded |
| UploadGate.UploadPage.Settle | backend/public/script.js:274-306 | load, error and abort events of a request that no longer owns its slot change nothing; the owner's event releases the slot and sets its final state |
| UploadGate.UploadPage.Progress | backend/public/script.js:268-273 | a progress event acts only for the owning request of an uploading slot, and never changes the slot states |
| UploadGate.UploadPage.UploadWithProgress | backend/public/script.js:259-313 | any previous request on the slot is aborted and released; a new request then owns the slot, the slot is uploading and the button is disabled |
| UploadGate.UploadPage.StartCreateProcess | backend/public/script.js:822-826 | create starts iff the button is enabled, not locked and both slots succeeded (the last is implied by the first), and starting takes the lock |
| UploadGate.UploadPage.FinishCreateProcess | backend/public/script.js:850 | the end of the create animation releases the lock |
| UploadGate.UploadPage.OpenLoaderOverlay | backend/public/script.js:800-801 | opening the loader overlay locks and disables the button |
| UploadGate.UploadPage.CloseLoaderOverlay | backend/public/script.js:814-815 | closing it unlocks and re-syncs the button |
| UploadGate.UploadPage.SetOfferCompleteRedirectUrl | backend/public/script.js:769-773 | a non-string or empty token is ignored; otherwise the redirect URL becomes the API base + `/offer-complete?token=` + the encoded token |

## Left out

- Randomness: the token from `crypto.randomBytes(32)` (backend/server.js:219) is a parameter. It is required to have the 64-lower-case-hex-digit shape.
- Token collisions: the code does not check for them and overwrites, and the model does too. The single-use lemmas over request runs assume each issued token is new when issued (`FreshIssues`). A 256-bit collision would reset a used token.
- Clock: `Date.now()` and `new Date()` are an `int` parameter. JavaScript numbers are exact for millisecond timestamps, so no rounding is modelled.
- Session persistence: `req.session.save` is reduced to its outcome `saveOk`. The model's `Session` is the request's in-memory `req.session`, not the copy in the session store: after a failed save the model's flag stays raised, while a later request would read the stored copy, which the save did not update. Session cookies and the session store are not modelled.
- Caller identity: `Caller` folds every falsy `req.user.id` (missing, `null`, empty) into the empty string. Passport and the Google OAuth handshake are left out as framework wiring.
- Concurrency: each handler runs to completion in Node's single event loop, so requests are modelled one after another.
- Other server routes: `/auth/google`, its callback, logout, `/health`, static serving, and the upload endpoint's response and size limit are left out. They are Express/multer plumbing with no state of this core.
- UploadStorage.Sanitize: a character outside the Basic Multilingual Plane is one Dafny `char` but two UTF-16 code units in the source. The source's regular expression has no `u` flag and replaces each code unit, so it writes two `_` where the model writes one.
- UploadStorage.ShortSafe: the source's `.slice(0, 80)` counts UTF-16 code units, so each character outside the Basic Multilingual Plane counts two toward the 80-unit cut; the model counts it once.
- `path.extname` and `path.basename`: modelled in their POSIX form. A server running on Windows would also split on `\`.
- JsText.ToLower: models `toLowerCase` for ASCII letters only. No other character lower-cases into one of `image/` or `video/`, so the filter's verdict is the same.
- `encodeURIComponent` and `URLSearchParams`: `encode` is a function parameter, and `params.get("page")` is an `Option` input.
- Page elements: the DOM, classes, texts, timers and animations are left out, and the page's elements are taken to exist. `UploadGate.UploadPage.Progress` does not model the progress percentage, which is floating point.
- Click handler: the create button's click handler (backend/public/script.js:860-891) repeats the `startCreateProcess` guard and then fetches a token over the network. Only the guard, the token hand-off (`SetOfferCompleteRedirectUrl`) and the loader overlay's lock are modelled.
- Also left out: the ad-block detector, the content-locker modal, camera recording, and the development launch scripts.
